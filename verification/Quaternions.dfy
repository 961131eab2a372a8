/**
 Quaternion algebra, orientation integration and angular velocity estimation.

 The ramps integrate an angular velocity into an orientation; the input estimation
 recovers an angular velocity from two orientations. The main result is that the two
 undo each other.
 */
module Quaternions {
  import opened Messages
  import opened CommonAuxiliary

  /** The quaternion product `multiply(q1, q2)`. */
  function Multiply(p: Quaternion, q: Quaternion): Quaternion {
    Quaternion(
      p.u0 * q.u0 - p.u1 * q.u1 - p.u2 * q.u2 - p.u3 * q.u3,
      p.u0 * q.u1 + p.u1 * q.u0 + p.u2 * q.u3 - p.u3 * q.u2,
      p.u0 * q.u2 + p.u2 * q.u0 + p.u3 * q.u1 - p.u1 * q.u3,
      p.u0 * q.u3 + p.u3 * q.u0 + p.u1 * q.u2 - p.u2 * q.u1)
  }

  function Conjugate(q: Quaternion): Quaternion {
    Quaternion(q.u0, -q.u1, -q.u2, -q.u3)
  }

  function ScaleQuaternion(q: Quaternion, factor: real): Quaternion {
    Quaternion(q.u0 * factor, q.u1 * factor, q.u2 * factor, q.u3 * factor)
  }

  function Minus(p: Quaternion, q: Quaternion): Quaternion {
    Quaternion(p.u0 - q.u0, p.u1 - q.u1, p.u2 - q.u2, p.u3 - q.u3)
  }

  predicate Unit(q: Quaternion) {
    DotProduct(q, q) == 1.0
  }

  /** The pure quaternion of an angular velocity in degrees per second. */
  function Pure(pi: real, angular: Vec3): Quaternion {
    Quaternion(0.0, angular.x * (pi / 180.0), angular.y * (pi / 180.0), angular.z * (pi / 180.0))
  }

  /** `convert`: the derivative of an orientation turning with an angular velocity. */
  function Derivative(pi: real, q: Quaternion, angular: Vec3): Quaternion {
    ScaleQuaternion(Multiply(Pure(pi, angular), q), 0.5)
  }

  /** One integration step of the ramps, before the result is normalized. */
  function Integrate(pi: real, q: Quaternion, angular: Vec3, sampleTime: real): Quaternion {
    var dq := Derivative(pi, q, angular);
    Quaternion(q.u0 + sampleTime * dq.u0, q.u1 + sampleTime * dq.u1,
               q.u2 + sampleTime * dq.u2, q.u3 + sampleTime * dq.u3)
  }

  /** `estimateVelocities` for orientations: `2*(q2 - q1)/sample_time * conj(q1)`, in degrees per second. */
  function EstimateAngularVelocity(pi: real, current: Quaternion, previous: Quaternion, sampleTime: real): Vec3
    requires pi != 0.0 && sampleTime > 0.0
  {
    var difference := Minus(current, previous);
    var rate := Quaternion(2.0 * difference.u0 / sampleTime, 2.0 * difference.u1 / sampleTime,
                           2.0 * difference.u2 / sampleTime, 2.0 * difference.u3 / sampleTime);
    var estimation := Multiply(rate, Conjugate(previous));
    Vec3(estimation.u1 * (180.0 / pi), estimation.u2 * (180.0 / pi), estimation.u3 * (180.0 / pi))
  }

  // ------------------------------------------------------------------
  // Results
  // ------------------------------------------------------------------

  /** The vector part of `(w q) conj(q)`, for a pure quaternion `w` with product `a` and conjugate `c`. */
  lemma SandwichTerms(w1: real, w2: real, w3: real, q: Quaternion, a: Quaternion, c: Quaternion)
    requires a.u0 == -w1 * q.u1 - w2 * q.u2 - w3 * q.u3
    requires a.u1 == w1 * q.u0 + w2 * q.u3 - w3 * q.u2
    requires a.u2 == w2 * q.u0 + w3 * q.u1 - w1 * q.u3
    requires a.u3 == w3 * q.u0 + w1 * q.u2 - w2 * q.u1
    requires c.u0 == q.u0 && c.u1 == -q.u1 && c.u2 == -q.u2 && c.u3 == -q.u3
    ensures a.u0 * c.u1 + a.u1 * c.u0 + a.u2 * c.u3 - a.u3 * c.u2 == w1 * DotProduct(q, q)
    ensures a.u0 * c.u2 + a.u2 * c.u0 + a.u3 * c.u1 - a.u1 * c.u3 == w2 * DotProduct(q, q)
    ensures a.u0 * c.u3 + a.u3 * c.u0 + a.u1 * c.u2 - a.u2 * c.u1 == w3 * DotProduct(q, q)
  {
  }

  lemma PureProduct(w: Quaternion, q: Quaternion)
    requires w.u0 == 0.0
    ensures var a := Multiply(w, q);
            && a.u0 == -w.u1 * q.u1 - w.u2 * q.u2 - w.u3 * q.u3
            && a.u1 == w.u1 * q.u0 + w.u2 * q.u3 - w.u3 * q.u2
            && a.u2 == w.u2 * q.u0 + w.u3 * q.u1 - w.u1 * q.u3
            && a.u3 == w.u3 * q.u0 + w.u1 * q.u2 - w.u2 * q.u1
  {
  }

  lemma RateOfStep(x: real, y: real, h: real, difference: real)
    requires h > 0.0 && difference == x + h * (y * 0.5) - x
    ensures 2.0 * difference / h == y
  {
    assert 2.0 * difference == y * h;
  }

  lemma DegreesAndBack(pi: real, x: real, n: real, v: real, e: real)
    requires pi != 0.0 && v == x * (pi / 180.0) && e == v * n
    ensures e * (180.0 / pi) == x * n
  {
    assert (pi / 180.0) * (180.0 / pi) == 1.0;
    calc {
      e * (180.0 / pi);
      x * (pi / 180.0) * n * (180.0 / pi);
      (x * n) * ((pi / 180.0) * (180.0 / pi));
      x * n;
    }
  }

  /** The rate estimated from an integration step is the product of the pure quaternion and the orientation. */
  lemma RateIsProduct(pi: real, q: Quaternion, angular: Vec3, sampleTime: real, difference: Quaternion)
    requires sampleTime > 0.0
    requires difference == Minus(Integrate(pi, q, angular, sampleTime), q)
    ensures Quaternion(2.0 * difference.u0 / sampleTime, 2.0 * difference.u1 / sampleTime,
                       2.0 * difference.u2 / sampleTime, 2.0 * difference.u3 / sampleTime)
         == Multiply(Pure(pi, angular), q)
  {
    hide Multiply, Pure;
    var a := Multiply(Pure(pi, angular), q);
    RateOfStep(q.u0, a.u0, sampleTime, difference.u0);
    RateOfStep(q.u1, a.u1, sampleTime, difference.u1);
    RateOfStep(q.u2, a.u2, sampleTime, difference.u2);
    RateOfStep(q.u3, a.u3, sampleTime, difference.u3);
  }

  lemma EstimationOfProduct(pi: real, q: Quaternion, angular: Vec3, w: Quaternion, e: Quaternion, n: real)
    requires pi != 0.0 && w == Pure(pi, angular) && e == Multiply(Multiply(w, q), Conjugate(q))
    requires n == DotProduct(q, q)
    ensures e.u1 == w.u1 * n && e.u2 == w.u2 * n && e.u3 == w.u3 * n
  {
    PureProduct(w, q);
    SandwichTerms(w.u1, w.u2, w.u3, q, Multiply(w, q), Conjugate(q));
  }

  lemma EstimationInDegrees(pi: real, angular: Vec3, w: Quaternion, e: Quaternion, n: real)
    requires pi != 0.0 && w == Pure(pi, angular)
    requires e.u1 == w.u1 * n && e.u2 == w.u2 * n && e.u3 == w.u3 * n
    ensures Vec3(e.u1 * (180.0 / pi), e.u2 * (180.0 / pi), e.u3 * (180.0 / pi)) == ScaleVec(angular, n)
  {
    DegreesAndBack(pi, angular.x, n, w.u1, e.u1);
    DegreesAndBack(pi, angular.y, n, w.u2, e.u2);
    DegreesAndBack(pi, angular.z, n, w.u3, e.u3);
  }

  /** Estimating from an integration step gives the angular velocity times the squared norm of the orientation. */
  lemma EstimateAfterIntegrate(pi: real, q: Quaternion, angular: Vec3, sampleTime: real)
    requires pi != 0.0 && sampleTime > 0.0
    ensures EstimateAngularVelocity(pi, Integrate(pi, q, angular, sampleTime), q, sampleTime)
         == ScaleVec(angular, DotProduct(q, q))
  {
    hide Multiply, Integrate, Minus, Conjugate, Pure, DotProduct, ScaleVec;
    var w := Pure(pi, angular);
    var e := Multiply(Multiply(w, q), Conjugate(q));
    var n := DotProduct(q, q);
    RateIsProduct(pi, q, angular, sampleTime, Minus(Integrate(pi, q, angular, sampleTime), q));
    EstimationOfProduct(pi, q, angular, w, e, n);
    EstimationInDegrees(pi, angular, w, e, n);
  }

  /**
   Integration and estimation are inverse exactly on unit orientations: the angular
   velocity comes back if and only if the orientation has norm one or does not turn.
   */
  lemma IntegrationInverse(pi: real, q: Quaternion, angular: Vec3, sampleTime: real)
    requires pi != 0.0 && sampleTime > 0.0
    ensures EstimateAngularVelocity(pi, Integrate(pi, q, angular, sampleTime), q, sampleTime) == angular
        <==> Unit(q) || angular == ZERO
  {
    EstimateAfterIntegrate(pi, q, angular, sampleTime);
    var n := DotProduct(q, q);
    ScaleFixes(angular.x, n);
    ScaleFixes(angular.y, n);
    ScaleFixes(angular.z, n);
  }

  lemma ScaleFixes(x: real, n: real)
    ensures x * n == x <==> n == 1.0 || x == 0.0
  {
    if x * n == x && x != 0.0 {
      assert x * (n - 1.0) == 0.0;
    }
  }
}
