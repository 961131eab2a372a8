/**
 The spline polynomials the interpolator follows: fitting coefficients to boundary
 conditions, and evaluating position, velocity and acceleration.

 The main result says what a fit means: for every method, the fitted polynomial is the one
 and only polynomial of the method's degree that meets the method's boundary conditions.
 */
module Spline {
  import opened Messages
  import opened CommonAuxiliary

  function Pow(t: real, n: nat): (r: real)
    ensures t > 0.0 ==> r > 0.0
  {
    if n == 0 then 1.0 else t * Pow(t, n - 1)
  }

  function Loss(k: real, v: real): real {
    (k - 1.0) * v
  }

  /** Start position, velocity and acceleration; goal position, velocity and acceleration. */
  datatype SplineConditions = SplineConditions(
    duration: real, alfa: real, dAlfa: real, ddAlfa: real, beta: real, dBeta: real, ddBeta: real,
    splineMethod: SplineMethod, doRampDown: bool, rampDownFactor: real)
  {
    function EndFactor(): real {
      Saturate(rampDownFactor, 0.0, 1.0)
    }

    /** The velocity that a ramp-down ends with. */
    function EndVelocity(): real {
      EndFactor() * dAlfa
    }

    /** What a ramp-down does to the velocity. */
    function VelocityLoss(): real {
      Loss(EndFactor(), dAlfa)
    }

    // What is left for the higher coefficients, once the start conditions are met.

    function CubicGap(): real {
      beta - alfa - dAlfa * duration
    }

    function CubicVelocityGap(): real {
      dBeta - dAlfa
    }

    function HalfAcceleration(): real {
      ddAlfa / 2.0
    }

    function QuinticGap(): real {
      beta - alfa - dAlfa * duration - HalfAcceleration() * Pow(duration, 2)
    }

    function QuinticVelocityGap(): real {
      dBeta - dAlfa - ddAlfa * duration
    }

    function QuinticAccelerationGap(): real {
      ddBeta - ddAlfa
    }
  }

  /** `A + B*t + C*t^2 + D*t^3 + E*t^4 + F*t^5`. */
  datatype Polynomial = Polynomial(a: real, b: real, c: real, d: real, e: real, f: real) {
    function CalculatePosition(t: real): real {
      a + b * t + c * Pow(t, 2) + d * Pow(t, 3) + e * Pow(t, 4) + f * Pow(t, 5)
    }

    function CalculateVelocity(t: real): real {
      b + 2.0 * c * t + 3.0 * d * Pow(t, 2) + 4.0 * e * Pow(t, 3) + 5.0 * f * Pow(t, 4)
    }

    function CalculateAcceleration(t: real): real {
      2.0 * c + 6.0 * d * t + 12.0 * e * Pow(t, 2) + 20.0 * f * Pow(t, 3)
    }
  }

  const NO_POLYNOMIAL: Polynomial := Polynomial(0.0, 0.0, 0.0, 0.0, 0.0, 0.0)

  /** `SplinePolynomial::update`: the coefficients for the given conditions. */
  function Fit(s: SplineConditions): Polynomial
    requires s.duration > 0.0
  {
    var t := s.duration;
    if s.doRampDown then
      var c := s.VelocityLoss() / t;
      Polynomial(s.alfa, s.dAlfa, c, -c / (3.0 * t), 0.0, 0.0)
    else
      match s.splineMethod
      case Linear =>
        Polynomial(s.alfa, (s.beta - s.alfa) / t, 0.0, 0.0, 0.0, 0.0)
      case Square =>
        Polynomial(s.alfa, s.dAlfa, s.CubicGap() / Pow(t, 2), 0.0, 0.0, 0.0)
      case Cubic =>
        var c := CubicC(s);
        Polynomial(s.alfa, s.dAlfa, c, s.CubicGap() / Pow(t, 3) - c / t, 0.0, 0.0)
      case Quintic =>
        var c1 := s.QuinticGap();
        var d := QuinticD(s);
        var e := QuinticE(s, d);
        Polynomial(s.alfa, s.dAlfa, s.HalfAcceleration(), d, e, c1 / Pow(t, 5) - d / Pow(t, 2) - e / t)
  }

  function CubicC(s: SplineConditions): real
    requires s.duration > 0.0
  {
    3.0 * (s.CubicGap() / Pow(s.duration, 2)) - s.CubicVelocityGap() / s.duration
  }

  function QuinticD(s: SplineConditions): real
    requires s.duration > 0.0
  {
    10.0 * (s.QuinticGap() / Pow(s.duration, 3)) - 4.0 * (s.QuinticVelocityGap() / Pow(s.duration, 2))
    + (s.QuinticAccelerationGap() / s.duration) / 2.0
  }

  function QuinticE(s: SplineConditions, d: real): real
    requires s.duration > 0.0
  {
    5.0 * (s.QuinticGap() / Pow(s.duration, 4)) - s.QuinticVelocityGap() / Pow(s.duration, 3)
    - 2.0 * (d / s.duration)
  }

  /**
   The boundary conditions of the method, and its degree: what the polynomial has to be
   at the start and at the end of the duration.
   */
  ghost predicate Meets(p: Polynomial, s: SplineConditions) {
    && p.CalculatePosition(0.0) == s.alfa
    && (if s.doRampDown then
          && p.CalculateVelocity(0.0) == s.dAlfa
          && p.CalculateVelocity(s.duration) == s.EndVelocity()
          && p.CalculateAcceleration(s.duration) == 0.0
          && p.e == 0.0 && p.f == 0.0
        else
          && p.CalculatePosition(s.duration) == s.beta
          && match s.splineMethod
             case Linear =>
               p.c == 0.0 && p.d == 0.0 && p.e == 0.0 && p.f == 0.0
             case Square =>
               && p.CalculateVelocity(0.0) == s.dAlfa
               && p.d == 0.0 && p.e == 0.0 && p.f == 0.0
             case Cubic =>
               && p.CalculateVelocity(0.0) == s.dAlfa
               && p.CalculateVelocity(s.duration) == s.dBeta
               && p.e == 0.0 && p.f == 0.0
             case Quintic =>
               && p.CalculateVelocity(0.0) == s.dAlfa
               && p.CalculateVelocity(s.duration) == s.dBeta
               && p.CalculateAcceleration(0.0) == s.ddAlfa
               && p.CalculateAcceleration(s.duration) == s.ddBeta)
  }

  // ------------------------------------------------------------------
  // Arithmetic: coefficients multiplied out and divided back
  // ------------------------------------------------------------------

  /** `y` is `x` times `t`. */
  ghost predicate Is(y: real, x: real, t: real) {
    y == x * t
  }

  /** `x` divided by `t`, `t^2`, ... */
  datatype Quotients = Quotients(x: real, x1: real, x2: real, x3: real, x4: real, x5: real) {
    ghost predicate Of(t: real) {
      Is(x, x1, t) && Is(x1, x2, t) && Is(x2, x3, t) && Is(x3, x4, t) && Is(x4, x5, t)
    }
  }

  lemma Quotient(x: real, y: real, t: real, yt: real, q: real, r: real)
    requires y > 0.0 && yt > 0.0 && t > 0.0 && Is(yt, y, t) && q == x / y && r == x / yt
    ensures Is(q, r, t)
  {
    assert q * y == x && r * yt == x;
    assert r * (t * y) == (r * t) * y;
    assert (q - r * t) * y == 0.0;
  }

  lemma Divide(x: real, y: real, z: real)
    requires y != 0.0 && x == z * y
    ensures x / y == z
  {
  }

  lemma Powers(t: real)
    ensures Is(Pow(t, 2), t, t) && Is(Pow(t, 3), Pow(t, 2), t) && Is(Pow(t, 4), Pow(t, 3), t)
            && Is(Pow(t, 5), Pow(t, 4), t)
  {
    assert Pow(t, 1) == t;
  }

  lemma One(x: real)
    ensures Is(x, 1.0, x) && Is(x, x, 1.0)
  {
  }

  lemma Divided(x: real, t: real) returns (q: Quotients)
    requires t > 0.0
    ensures q.Of(t)
    ensures q == Quotients(x, x / t, x / Pow(t, 2), x / Pow(t, 3), x / Pow(t, 4), x / Pow(t, 5))
  {
    hide Pow, Is;
    Powers(t); One(t);
    q := Quotients(x, x / t, x / Pow(t, 2), x / Pow(t, 3), x / Pow(t, 4), x / Pow(t, 5));
    Quotient(x, 1.0, t, t, q.x, q.x1);
    Quotient(x, t, t, Pow(t, 2), q.x1, q.x2);
    Quotient(x, Pow(t, 2), t, Pow(t, 3), q.x2, q.x3);
    Quotient(x, Pow(t, 3), t, Pow(t, 4), q.x3, q.x4);
    Quotient(x, Pow(t, 4), t, Pow(t, 5), q.x4, q.x5);
  }

  /** `x` times `t`, `t^2`, ... */
  datatype Multiples = Multiples(x: real, x1: real, x2: real, x3: real, x4: real, x5: real) {
    ghost predicate Of(t: real) {
      Is(x1, x, t) && Is(x2, x1, t) && Is(x3, x2, t) && Is(x4, x3, t) && Is(x5, x4, t)
    }
  }

  lemma Product(x: real, y: real, t: real, yt: real, q: real, r: real)
    requires Is(yt, y, t) && Is(q, x, y) && Is(r, x, yt)
    ensures Is(r, q, t)
  {
    assert x * (t * y) == (x * y) * t;
  }

  lemma MultiplesOf(m: Multiples, t: real)
    requires Is(m.x1, m.x, t) && Is(m.x2, m.x, Pow(t, 2)) && Is(m.x3, m.x, Pow(t, 3))
    requires Is(m.x4, m.x, Pow(t, 4)) && Is(m.x5, m.x, Pow(t, 5))
    ensures m.Of(t)
  {
    hide Pow, Is;
    Powers(t);
    Product(m.x, t, t, Pow(t, 2), m.x1, m.x2);
    Product(m.x, Pow(t, 2), t, Pow(t, 3), m.x2, m.x3);
    Product(m.x, Pow(t, 3), t, Pow(t, 4), m.x3, m.x4);
    Product(m.x, Pow(t, 4), t, Pow(t, 5), m.x4, m.x5);
  }

  lemma Multiplied(x: real, t: real) returns (m: Multiples)
    ensures m.Of(t) && Is(m.x1, x, t) && Is(m.x2, x, Pow(t, 2))
    ensures m == Multiples(x, x * t, x * Pow(t, 2), x * Pow(t, 3), x * Pow(t, 4), x * Pow(t, 5))
  {
    hide Pow;
    m := Multiples(x, x * t, x * Pow(t, 2), x * Pow(t, 3), x * Pow(t, 4), x * Pow(t, 5));
    MultiplesOf(m, t);
  }

  lemma AtZero(p: Polynomial)
    ensures p.CalculatePosition(0.0) == p.a
    ensures p.CalculateVelocity(0.0) == p.b
    ensures p.CalculateAcceleration(0.0) == 2.0 * p.c
  {
    assert Pow(0.0, 1) == 0.0 && Pow(0.0, 2) == 0.0 && Pow(0.0, 3) == 0.0 && Pow(0.0, 4) == 0.0 && Pow(0.0, 5) == 0.0;
  }

  lemma PositionOf(p: Polynomial, t: real, b: real, c: real, d: real, e: real, f: real)
    requires b == p.b * t && c == p.c * Pow(t, 2) && d == p.d * Pow(t, 3) && e == p.e * Pow(t, 4)
             && f == p.f * Pow(t, 5)
    ensures p.CalculatePosition(t) == p.a + b + c + d + e + f
  {
    hide Pow;
  }

  lemma VelocityOf(p: Polynomial, t: real, c: real, d: real, e: real, f: real)
    requires c == p.c * t && d == p.d * Pow(t, 2) && e == p.e * Pow(t, 3) && f == p.f * Pow(t, 4)
    ensures p.CalculateVelocity(t) == p.b + 2.0 * c + 3.0 * d + 4.0 * e + 5.0 * f
  {
    hide Pow;
  }

  lemma AccelerationOf(p: Polynomial, t: real, d: real, e: real, f: real)
    requires d == p.d * t && e == p.e * Pow(t, 2) && f == p.f * Pow(t, 3)
    ensures p.CalculateAcceleration(t) == 2.0 * p.c + 6.0 * d + 12.0 * e + 20.0 * f
  {
    hide Pow;
  }

  /** The values of a polynomial, in the multiples of its coefficients. */
  lemma Values(p: Polynomial, t: real) returns (b: Multiples, c: Multiples, d: Multiples, e: Multiples, f: Multiples)
    ensures b.Of(t) && c.Of(t) && d.Of(t) && e.Of(t) && f.Of(t)
    ensures b.x == p.b && c.x == p.c && d.x == p.d && e.x == p.e && f.x == p.f
    ensures Is(b.x1, p.b, t) && Is(c.x2, p.c, Pow(t, 2))
    ensures p.CalculatePosition(t) == p.a + b.x1 + c.x2 + d.x3 + e.x4 + f.x5
    ensures p.CalculateVelocity(t) == p.b + 2.0 * c.x1 + 3.0 * d.x2 + 4.0 * e.x3 + 5.0 * f.x4
    ensures p.CalculateAcceleration(t) == 2.0 * p.c + 6.0 * d.x1 + 12.0 * e.x2 + 20.0 * f.x3
  {
    hide Pow, Polynomial.CalculatePosition, Polynomial.CalculateVelocity, Polynomial.CalculateAcceleration;
    b := Multiplied(p.b, t);
    c := Multiplied(p.c, t);
    d := Multiplied(p.d, t);
    e := Multiplied(p.e, t);
    f := Multiplied(p.f, t);
    PositionOf(p, t, b.x1, c.x2, d.x3, e.x4, f.x5);
    VelocityOf(p, t, c.x1, d.x2, e.x3, f.x4);
    AccelerationOf(p, t, d.x1, e.x2, f.x3);
  }

  lemma NoMultiples(m: Multiples, t: real)
    requires m.Of(t) && m.x == 0.0
    ensures m == Multiples(0.0, 0.0, 0.0, 0.0, 0.0, 0.0)
  {
  }

  // Combinations times `t`: cancelling the factor, and multiplying it out.

  lemma Distribute(j: real, x: real, xt: real, k: real, y: real, yt: real, t: real)
    requires Is(xt, x, t) && Is(yt, y, t)
    ensures (j * x + k * y) * t == j * xt + k * yt
  {
    assert (j * x) * t == j * (x * t) && (k * y) * t == k * (y * t);
  }

  lemma Cancel(q: real, qt: real, j: real, x: real, xt: real, k: real, y: real, yt: real, t: real)
    requires t > 0.0 && Is(qt, q, t) && Is(xt, x, t) && Is(yt, y, t)
    requires qt == j * xt + k * yt
    ensures q == j * x + k * y
  {
    Distribute(j, x, xt, k, y, yt, t);
    assert (q - (j * x + k * y)) * t == 0.0;
  }

  lemma Expand(q: real, qt: real, j: real, x: real, xt: real, k: real, y: real, yt: real, t: real)
    requires Is(qt, q, t) && Is(xt, x, t) && Is(yt, y, t)
    requires q == j * x + k * y
    ensures qt == j * xt + k * yt
  {
    Distribute(j, x, xt, k, y, yt, t);
  }

  lemma Cancel3(q: real, qt: real, j: real, x: real, xt: real, k: real, y: real, yt: real,
                l: real, z: real, zt: real, t: real)
    requires t > 0.0 && Is(qt, q, t) && Is(xt, x, t) && Is(yt, y, t) && Is(zt, z, t)
    requires qt == j * xt + k * yt + l * zt
    ensures q == j * x + k * y + l * z
  {
    Distribute(j, x, xt, k, y, yt, t);
    Cancel(q, qt, 1.0, j * x + k * y, j * xt + k * yt, l, z, zt, t);
  }

  lemma Expand3(q: real, qt: real, j: real, x: real, xt: real, k: real, y: real, yt: real,
                l: real, z: real, zt: real, t: real)
    requires Is(qt, q, t) && Is(xt, x, t) && Is(yt, y, t) && Is(zt, z, t)
    requires q == j * x + k * y + l * z
    ensures qt == j * xt + k * yt + l * zt
  {
    Distribute(j, x, xt, k, y, yt, t);
    Expand(q, qt, 1.0, j * x + k * y, j * xt + k * yt, l, z, zt, t);
  }

  lemma CubicTerms(t: real, c: Multiples, d: Multiples, g: real, p: Quotients, r: Quotients)
    requires t > 0.0 && c.Of(t) && d.Of(t) && p.Of(t) && r.Of(t) && Is(c.x, g, t)
    requires p.x == c.x2 + d.x3
    requires r.x == 2.0 * c.x1 + 3.0 * d.x2
    ensures c.x == 3.0 * p.x2 - r.x1
    ensures d.x == p.x3 - g
  {
    hide Is;
    Cancel(p.x1, p.x, 1.0, c.x1, c.x2, 1.0, d.x2, d.x3, t);
    Cancel(p.x2, p.x1, 1.0, c.x, c.x1, 1.0, d.x1, d.x2, t);
    Cancel(p.x3, p.x2, 1.0, g, c.x, 1.0, d.x, d.x1, t);
    Cancel(r.x1, r.x, 2.0, c.x, c.x1, 3.0, d.x1, d.x2, t);
  }

  lemma CubicMeets(t: real, c: Multiples, d: Multiples, g: real, p: Quotients, r: Quotients)
    requires t > 0.0 && c.Of(t) && d.Of(t) && p.Of(t) && r.Of(t) && Is(c.x, g, t)
    requires c.x == 3.0 * p.x2 - r.x1
    requires d.x == p.x3 - g
    ensures c.x2 + d.x3 == p.x
    ensures 2.0 * c.x1 + 3.0 * d.x2 == r.x
  {
    hide Is;
    Expand(c.x, c.x1, 3.0, p.x2, p.x1, -1.0, r.x1, r.x, t);
    Expand(d.x, d.x1, 1.0, p.x3, p.x2, -1.0, g, c.x, t);
    Expand(d.x1, d.x2, 1.0, p.x2, p.x1, -1.0, c.x, c.x1, t);
    Expand(d.x2, d.x3, 1.0, p.x1, p.x, -1.0, c.x1, c.x2, t);
  }

  lemma QuinticTerms(t: real, d: Multiples, e: Multiples, f: Multiples,
                     g: Quotients, h: real, p: Quotients, r: Quotients, w: real, wt: real)
    requires t > 0.0 && d.Of(t) && e.Of(t) && f.Of(t) && g.Of(t) && p.Of(t) && r.Of(t)
    requires g.x == d.x && Is(e.x, h, t)
    requires p.x == d.x3 + e.x4 + f.x5
    requires r.x == 3.0 * d.x2 + 4.0 * e.x3 + 5.0 * f.x4
    requires Is(wt, w, t)
    requires wt == 3.0 * d.x1 + 6.0 * e.x2 + 10.0 * f.x3
    ensures d.x == 10.0 * p.x3 - 4.0 * r.x2 + w
    ensures e.x == 5.0 * p.x4 - r.x3 - 2.0 * g.x1
    ensures f.x == p.x5 - g.x2 - h
  {
    hide Is;
    Cancel3(p.x1, p.x, 1.0, d.x2, d.x3, 1.0, e.x3, e.x4, 1.0, f.x4, f.x5, t);
    Cancel3(p.x2, p.x1, 1.0, d.x1, d.x2, 1.0, e.x2, e.x3, 1.0, f.x3, f.x4, t);
    Cancel3(p.x3, p.x2, 1.0, d.x, d.x1, 1.0, e.x1, e.x2, 1.0, f.x2, f.x3, t);
    Cancel3(p.x4, p.x3, 1.0, g.x1, g.x, 1.0, e.x, e.x1, 1.0, f.x1, f.x2, t);
    Cancel3(p.x5, p.x4, 1.0, g.x2, g.x1, 1.0, h, e.x, 1.0, f.x, f.x1, t);
    Cancel3(r.x1, r.x, 3.0, d.x1, d.x2, 4.0, e.x2, e.x3, 5.0, f.x3, f.x4, t);
    Cancel3(r.x2, r.x1, 3.0, d.x, d.x1, 4.0, e.x1, e.x2, 5.0, f.x2, f.x3, t);
    Cancel3(r.x3, r.x2, 3.0, g.x1, g.x, 4.0, e.x, e.x1, 5.0, f.x1, f.x2, t);
    Cancel3(w, wt, 3.0, d.x, d.x1, 6.0, e.x1, e.x2, 10.0, f.x2, f.x3, t);
  }

  lemma QuinticMeets(t: real, d: Multiples, e: Multiples, f: Multiples,
                     g: Quotients, h: real, p: Quotients, r: Quotients, w: real, wt: real)
    requires t > 0.0 && d.Of(t) && e.Of(t) && f.Of(t) && g.Of(t) && p.Of(t) && r.Of(t)
    requires g.x == d.x && Is(e.x, h, t) && Is(wt, w, t)
    requires d.x == 10.0 * p.x3 - 4.0 * r.x2 + w
    requires e.x == 5.0 * p.x4 - r.x3 - 2.0 * g.x1
    requires f.x == p.x5 - g.x2 - h
    ensures d.x3 + e.x4 + f.x5 == p.x
    ensures 3.0 * d.x2 + 4.0 * e.x3 + 5.0 * f.x4 == r.x
    ensures 3.0 * d.x1 + 6.0 * e.x2 + 10.0 * f.x3 == wt
  {
    hide Is;
    Expand3(d.x, d.x1, 10.0, p.x3, p.x2, -4.0, r.x2, r.x1, 1.0, w, wt, t);
    Expand3(e.x, e.x1, 5.0, p.x4, p.x3, -1.0, r.x3, r.x2, -2.0, g.x1, g.x, t);
    Expand3(e.x1, e.x2, 5.0, p.x3, p.x2, -1.0, r.x2, r.x1, -2.0, d.x, d.x1, t);
    Expand3(e.x2, e.x3, 5.0, p.x2, p.x1, -1.0, r.x1, r.x, -2.0, d.x1, d.x2, t);
    Expand3(f.x, f.x1, 1.0, p.x5, p.x4, -1.0, g.x2, g.x1, -1.0, h, e.x, t);
    Expand3(f.x1, f.x2, 1.0, p.x4, p.x3, -1.0, g.x1, g.x, -1.0, e.x, e.x1, t);
    Expand3(f.x2, f.x3, 1.0, p.x3, p.x2, -1.0, d.x, d.x1, -1.0, e.x1, e.x2, t);
    Expand3(f.x3, f.x4, 1.0, p.x2, p.x1, -1.0, d.x1, d.x2, -1.0, e.x2, e.x3, t);
    Expand3(f.x4, f.x5, 1.0, p.x1, p.x, -1.0, d.x2, d.x3, -1.0, e.x3, e.x4, t);
  }

  /** The order of a multiplication and a division does not matter. */
  lemma Regroup(k: real, x: real, y: real)
    requires y > 0.0
    ensures (k * x) / y == k * (x / y)
  {
    var q := x / y;
    assert q * y == x;
    assert (k * q) * y == k * (q * y);
    Divide(k * x, y, k * q);
  }

  lemma HalfQuotient(x: real, y: real)
    requires y > 0.0
    ensures x / (2.0 * y) == (x / y) / 2.0
  {
    var q := x / y;
    assert q * y == x;
    Divide(x, 2.0 * y, q / 2.0);
  }

  // ------------------------------------------------------------------
  // A fit is the one polynomial that meets the conditions
  // ------------------------------------------------------------------

  /** A quotient equals `z` when the dividend equals the product of `z` with the divisor. */
  lemma QuotientIs(x: real, y: real, z: real, zy: real)
    requires y > 0.0 && Is(zy, z, y)
    ensures x / y == z <==> x == zy
  {
    if x / y == z {
      assert x == z * y;
    }
  }

  lemma LinearExact(p: Polynomial, s: SplineConditions)
    requires s.duration > 0.0 && !s.doRampDown && s.splineMethod == Linear
    ensures Meets(p, s) <==> p == Fit(s)
  {
    var b, c, d, e, f := Values(p, s.duration);
    AtZero(p);
    hide Pow, Is;
    QuotientIs(s.beta - s.alfa, s.duration, p.b, b.x1);
    if p.c == 0.0 && p.d == 0.0 && p.e == 0.0 && p.f == 0.0 {
      NoMultiples(c, s.duration); NoMultiples(d, s.duration); NoMultiples(e, s.duration); NoMultiples(f, s.duration);
    }
  }

  lemma CubicGaps(s: SplineConditions, b1: real)
    requires Is(b1, s.dAlfa, s.duration)
    ensures s.CubicGap() == s.beta - s.alfa - b1
  {
  }

  lemma SquareExact(p: Polynomial, s: SplineConditions)
    requires s.duration > 0.0 && !s.doRampDown && s.splineMethod == Square
    ensures Meets(p, s) <==> p == Fit(s)
  {
    var b, c, d, e, f := Values(p, s.duration);
    AtZero(p);
    hide Pow, Is, SplineConditions.CubicGap;
    if p.a == s.alfa && p.b == s.dAlfa && p.d == 0.0 && p.e == 0.0 && p.f == 0.0 {
      CubicGaps(s, b.x1);
      assert Pow(s.duration, 2) > 0.0;
      QuotientIs(s.CubicGap(), Pow(s.duration, 2), p.c, c.x2);
      NoMultiples(d, s.duration); NoMultiples(e, s.duration); NoMultiples(f, s.duration);
    }
  }

  lemma CubicExact(p: Polynomial, s: SplineConditions)
    requires s.duration > 0.0 && !s.doRampDown && s.splineMethod == Cubic
    ensures Meets(p, s) <==> p == Fit(s)
  {
    var t := s.duration;
    var b, c, d, e, f := Values(p, t);
    AtZero(p);
    hide Pow, Is, SplineConditions.CubicGap;
    var q := Divided(s.CubicGap(), t);
    var r := Divided(s.CubicVelocityGap(), t);
    var g := Divided(p.c, t);
    if p.a == s.alfa && p.b == s.dAlfa && p.e == 0.0 && p.f == 0.0 {
      CubicGaps(s, b.x1);
      NoMultiples(e, t); NoMultiples(f, t);
      if Meets(p, s) {
        CubicTerms(t, c, d, g.x1, q, r);
      }
      if p == Fit(s) {
        CubicMeets(t, c, d, g.x1, q, r);
      }
    }
  }

  lemma QuinticGaps(s: SplineConditions, b1: real, c1: real, c2: real)
    requires Is(b1, s.dAlfa, s.duration)
    requires Is(c1, s.HalfAcceleration(), s.duration) && Is(c2, s.HalfAcceleration(), Pow(s.duration, 2))
    ensures s.QuinticGap() == s.beta - s.alfa - b1 - c2
    ensures s.QuinticVelocityGap() == s.dBeta - s.dAlfa - 2.0 * c1
    ensures s.QuinticAccelerationGap() == s.ddBeta - 2.0 * s.HalfAcceleration()
  {
    hide Pow;
  }

  lemma QuinticExact(p: Polynomial, s: SplineConditions)
    requires s.duration > 0.0 && !s.doRampDown && s.splineMethod == Quintic
    ensures Meets(p, s) <==> p == Fit(s)
  {
    var t := s.duration;
    var b, c, d, e, f := Values(p, t);
    AtZero(p);
    hide Pow, SplineConditions.QuinticGap, SplineConditions.QuinticVelocityGap, SplineConditions.QuinticAccelerationGap;
    var q := Divided(s.QuinticGap(), t);
    var r := Divided(s.QuinticVelocityGap(), t);
    var w := Divided(s.QuinticAccelerationGap(), t);
    var g := Divided(p.d, t);
    var h := Divided(p.e, t);
    Halve(w.x, w.x1, t);
    if p.a == s.alfa && p.b == s.dAlfa && p.c == s.HalfAcceleration() {
      QuinticGaps(s, b.x1, c.x1, c.x2);
      hide Is;
      if Meets(p, s) {
        QuinticTerms(t, d, e, f, g, h.x1, q, r, w.x1 / 2.0, w.x / 2.0);
      }
      if p == Fit(s) {
        QuinticMeets(t, d, e, f, g, h.x1, q, r, w.x1 / 2.0, w.x / 2.0);
      }
    }
  }

  lemma Halve(y: real, x: real, t: real)
    requires Is(y, x, t)
    ensures Is(y / 2.0, x / 2.0, t)
  {
  }

  lemma VelocityLossIs(s: SplineConditions)
    ensures s.VelocityLoss() == s.EndVelocity() - s.dAlfa
  {
  }

  lemma RampDownExact(p: Polynomial, s: SplineConditions)
    requires s.duration > 0.0 && s.doRampDown
    ensures Meets(p, s) <==> p == Fit(s)
  {
    var t := s.duration;
    var b, c, d, e, f := Values(p, t);
    AtZero(p);
    VelocityLossIs(s);
    hide Pow, Is, SplineConditions.VelocityLoss, SplineConditions.EndVelocity;
    if p.a == s.alfa && p.b == s.dAlfa && p.e == 0.0 && p.f == 0.0 {
      NoMultiples(e, t); NoMultiples(f, t);
      QuotientIs(s.VelocityLoss(), t, p.c, c.x1);
      RampDownThird(p.c, p.d, t, c.x1, d.x1, d.x2);
    }
  }

  lemma RampDownThird(c: real, d: real, t: real, c1: real, d1: real, d2: real)
    requires t > 0.0 && Is(c1, c, t) && Is(d1, d, t) && Is(d2, d1, t)
    ensures d == -c / (3.0 * t) <==> 2.0 * c + 6.0 * d1 == 0.0
    ensures 2.0 * c + 6.0 * d1 == 0.0 ==> c1 == -3.0 * d2
  {
    if 2.0 * c + 6.0 * d1 == 0.0 {
      assert c == -3.0 * d1;
    }
  }

  /**
   Fitting is exact, for every method and for ramping down: the fitted polynomial meets the
   boundary conditions, and no other polynomial of the method's degree does.
   */
  lemma FitExact(p: Polynomial, s: SplineConditions)
    requires s.duration > 0.0
    ensures Meets(p, s) <==> p == Fit(s)
  {
    if s.doRampDown {
      RampDownExact(p, s);
    } else {
      match s.splineMethod
      case Linear => LinearExact(p, s);
      case Square => SquareExact(p, s);
      case Cubic => CubicExact(p, s);
      case Quintic => QuinticExact(p, s);
    }
  }

  /** The boundary conditions a polynomial has over a duration. */
  function Sample(p: Polynomial, duration: real): SplineConditions {
    SplineConditions(duration, p.CalculatePosition(0.0), p.CalculateVelocity(0.0), p.CalculateAcceleration(0.0),
                     p.CalculatePosition(duration), p.CalculateVelocity(duration), p.CalculateAcceleration(duration),
                     Quintic, false, 0.0)
  }

  /** A quintic fit gives back, coefficient by coefficient, the polynomial its conditions were sampled from. */
  lemma FitInvertsSampling(p: Polynomial, duration: real)
    requires duration > 0.0
    ensures Fit(Sample(p, duration)) == p
  {
    QuinticExact(p, Sample(p, duration));
  }

  // ------------------------------------------------------------------
  // The shape of a ramp-down
  // ------------------------------------------------------------------

  /** The share of the start velocity that is left after a share `x` of the duration. */
  function RampDownShare(k: real, x: real): real {
    1.0 - (1.0 - k) * Fall(x)
  }

  function Fall(x: real): real {
    2.0 * x - x * x
  }

  /** The share falls steadily from one to `k`. */
  lemma RampDownShareFalls(k: real, x: real, y: real)
    requires 0.0 <= k <= 1.0 && 0.0 <= x <= y <= 1.0
    ensures RampDownShare(k, 0.0) == 1.0 && RampDownShare(k, 1.0) == k
    ensures k <= RampDownShare(k, y) <= RampDownShare(k, x) <= 1.0
  {
    FallRises(x, y);
    assert Fall(0.0) == 0.0 && Fall(1.0) == 1.0;
    ScaledFall(k, Fall(x), Fall(y));
  }

  lemma FallRises(x: real, y: real)
    requires 0.0 <= x <= y <= 1.0
    ensures 0.0 <= Fall(x) <= Fall(y) <= 1.0
  {
    NonNegative(x, 2.0 - x, Fall(x));
    NonNegative(y - x, 2.0 - x - y, Fall(y) - Fall(x));
    NonNegative(1.0 - y, 1.0 - y, 1.0 - Fall(y));
  }

  lemma NonNegative(x: real, y: real, z: real)
    requires x >= 0.0 && y >= 0.0 && z == x * y
    ensures z >= 0.0
  {
  }

  lemma ScaledFall(k: real, u: real, v: real)
    requires 0.0 <= k <= 1.0 && 0.0 <= u <= v <= 1.0
    ensures k <= 1.0 - (1.0 - k) * v <= 1.0 - (1.0 - k) * u <= 1.0
  {
    NonNegative(1.0 - k, u, (1.0 - k) * u);
    NonNegative(1.0 - k, v - u, (1.0 - k) * v - (1.0 - k) * u);
    NonNegative(1.0 - k, 1.0 - v, (1.0 - k) - (1.0 - k) * v);
  }

  /** While ramping down, the velocity is the share of the start velocity, so it never overshoots or turns. */
  lemma RampDownVelocity(s: SplineConditions, x: real, t: real)
    requires s.duration > 0.0 && s.doRampDown && Is(t, x, s.duration)
    ensures Is(Fit(s).CalculateVelocity(t), RampDownShare(s.EndFactor(), x), s.dAlfa)
  {
    var p := Fit(s);
    var k := s.EndFactor();
    var b, c, d, e, f := Values(p, t);
    hide Pow, Loss;
    NoMultiples(e, t); NoMultiples(f, t);
    var w := s.VelocityLoss();
    RampDownCoefficients(p.c, p.d, w, s.duration, x, t, c.x1, d.x1, d.x2);
    ShareOfVelocity(k, x, s.dAlfa, w, c.x1, d.x2, p.CalculateVelocity(t));
  }

  lemma RampDownCoefficients(c: real, d: real, w: real, duration: real, x: real, t: real,
                             ct: real, dt: real, dtt: real)
    requires duration > 0.0 && c == w / duration && d == -c / (3.0 * duration)
    requires Is(t, x, duration) && Is(ct, c, t) && Is(dt, d, t) && Is(dtt, dt, t)
    ensures Is(ct, w, x) && Is(-3.0 * dtt, ct, x)
  {
    assert c * duration == w;
    assert d * duration == -c / 3.0;
    assert ct == (c * duration) * x;
    assert dt == (d * duration) * x;
    assert dtt == (-c / 3.0) * x * t;
    assert 3.0 * dtt == -(c * t) * x;
  }

  lemma ShareOfVelocity(k: real, x: real, v: real, w: real, wx: real, dtt: real, velocity: real)
    requires w == Loss(k, v) && Is(wx, w, x) && Is(-3.0 * dtt, wx, x)
    requires velocity == v + 2.0 * wx + 3.0 * dtt
    ensures Is(velocity, RampDownShare(k, x), v)
  {
    assert wx == (k - 1.0) * v * x;
    assert wx * x == (k - 1.0) * v * x * x;
    assert velocity == v + 2.0 * wx - wx * x;
    assert RampDownShare(k, x) * v == (1.0 - (1.0 - k) * (2.0 * x - x * x)) * v;
  }

  lemma ScaledOrder(k: real, b: real, a: real, v: real, kv: real, bv: real, av: real)
    requires 0.0 <= k <= b <= a <= 1.0 && Is(kv, k, v) && Is(bv, b, v) && Is(av, a, v)
    ensures if v >= 0.0 then 0.0 <= kv <= bv <= av <= v else v <= av <= bv <= kv <= 0.0
  {
    var w := if v >= 0.0 then v else -v;
    NonNegative(k, w, k * w);
    NonNegative(b - k, w, b * w - k * w);
    NonNegative(a - b, w, a * w - b * w);
    NonNegative(1.0 - a, w, w - a * w);
  }

  /**
   While ramping down, the velocity moves steadily from the start velocity to the end velocity:
   it never turns around and never exceeds the start velocity.
   */
  lemma RampDownShape(s: SplineConditions, x: real, y: real, t: real, u: real)
    requires s.duration > 0.0 && s.doRampDown && 0.0 <= x <= y <= 1.0
    requires Is(t, x, s.duration) && Is(u, y, s.duration)
    ensures var p, v, end := Fit(s), s.dAlfa, s.EndVelocity();
            if v >= 0.0 then 0.0 <= end <= p.CalculateVelocity(u) <= p.CalculateVelocity(t) <= v
            else v <= p.CalculateVelocity(t) <= p.CalculateVelocity(u) <= end <= 0.0
  {
    EndVelocityIs(s);
    hide Fit, Is, RampDownShare, SplineConditions.EndVelocity, Polynomial.CalculateVelocity;
    var k, p := s.EndFactor(), Fit(s);
    RampDownVelocity(s, x, t);
    RampDownVelocity(s, y, u);
    RampDownShareFalls(k, x, y);
    ScaledOrder(k, RampDownShare(k, y), RampDownShare(k, x), s.dAlfa,
                s.EndVelocity(), p.CalculateVelocity(u), p.CalculateVelocity(t));
  }

  lemma EndVelocityIs(s: SplineConditions)
    ensures Is(s.EndVelocity(), s.EndFactor(), s.dAlfa)
  {
  }

  function RampDownPath(k: real, v: real, t: real): real {
    v * t * ((1.0 + 2.0 * k) / 3.0)
  }

  /** Ramping down covers the start velocity times the duration times `(1 + 2K)/3`. */
  lemma RampDownDistance(s: SplineConditions)
    requires s.duration > 0.0 && s.doRampDown
    ensures Fit(s).CalculatePosition(s.duration) - s.alfa
         == RampDownPath(s.EndFactor(), s.dAlfa, s.duration)
  {
    var p := Fit(s);
    var k, t := s.EndFactor(), s.duration;
    var b, c, d, e, f := Values(p, t);
    hide Pow, Loss;
    NoMultiples(e, t); NoMultiples(f, t);
    var w := s.VelocityLoss();
    RampDownCoefficients(p.c, p.d, w, t, 1.0, t, c.x1, d.x1, d.x2);
    RampDownTotal(k, s.dAlfa, t, w, c.x1, c.x2, d.x2, d.x3, b.x1);
  }

  lemma RampDownTotal(k: real, v: real, t: real, w: real, c1: real, c2: real, d2: real, d3: real, b1: real)
    requires w == Loss(k, v) && Is(c1, w, 1.0) && Is(-3.0 * d2, c1, 1.0)
    requires Is(c2, c1, t) && Is(d3, d2, t) && Is(b1, v, t)
    ensures b1 + c2 + d3 == RampDownPath(k, v, t)
  {
    assert c2 == w * t && 3.0 * d3 == -(w * t);
    assert w * t == (k - 1.0) * b1;
    assert RampDownPath(k, v, t) == b1 * ((1.0 + 2.0 * k) / 3.0);
  }
}
