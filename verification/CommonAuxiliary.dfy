/**
 Auxiliary functions on joint values, Cartesian values and orientations.

 The joint operations are loops over repeated fields. Each is a method proved
 against a specification function that says what every element becomes.
 */
module CommonAuxiliary {
  import opened Messages

  function Saturate(value: real, lower: real, upper: real): real {
    if value < lower then lower else if value > upper then upper else value
  }

  function Abs(x: real): real {
    if x < 0.0 then -x else x
  }

  function Max(x: real, y: real): real {
    if x < y then y else x
  }

  lemma QuotientAtLeastOne(x: real, y: real)
    requires x >= y > 0.0
    ensures x / y >= 1.0
  {
    PositiveFactor(x / y - 1.0, y, x - y);
  }

  lemma PositiveFactor(x: real, y: real, product: real)
    requires y > 0.0 && product >= 0.0 && product == x * y
    ensures x >= 0.0
  {
  }

  function MinSize(m: nat, n: nat): nat {
    if m < n then m else n
  }

  /** `multiply` on Cartesian values. */
  function ScaleVec(v: Vec3, factor: real): Vec3 {
    Vec3(v.x * factor, v.y * factor, v.z * factor)
  }

  /** From `start`, the share `factor` of the way to `goal`. */
  function Between(start: real, factor: real, goal: real): real {
    start + factor * (goal - start)
  }

  function Scaled(factor: real, x: real): real {
    factor * x
  }

  function Moved(position: real, time: real, velocity: real): real {
    position + time * velocity
  }

  function Blend(start: Vec3, factor: real, goal: Vec3): Vec3 {
    Vec3(Between(start.x, factor, goal.x), Between(start.y, factor, goal.y), Between(start.z, factor, goal.z))
  }

  function MovedVec(position: Vec3, time: real, velocity: Vec3): Vec3 {
    Vec3(Moved(position.x, time, velocity.x), Moved(position.y, time, velocity.y), Moved(position.z, time, velocity.z))
  }

  /** `copyPresent` for Cartesian values and Euler angles. */
  function CopyPresentVec(target: Vec3, source: PartialVec3): Vec3 {
    Vec3(source.x.GetOr(target.x), source.y.GetOr(target.y), source.z.GetOr(target.z))
  }

  /** `copyPresent` for quaternions, which normalizes the result. */
  function CopyPresentQuaternion(m: Math, target: Quaternion, source: PartialQuaternion): Quaternion {
    m.normalize(Quaternion(source.u0.GetOr(target.u0), source.u1.GetOr(target.u1),
                           source.u2.GetOr(target.u2), source.u3.GetOr(target.u3)))
  }

  /** How every transfer sets an orientation: Euler angles first, else the quaternion, else nothing. */
  function CopyPresentOrientation(m: Math, target: Quaternion, source: Orientation): Quaternion {
    if source.euler.Present? then
      m.normalize(m.toQuaternion(CopyPresentVec(m.toEuler(target), source.euler.value)))
    else if source.quaternion.Present? then
      CopyPresentQuaternion(m, target, source.quaternion.value)
    else
      target
  }

  /** A value is the one of the source if that is present, and else the one before. */
  predicate Taken(r: real, source: Optional<real>, before: real) {
    r == if source.Present? then source.value else before
  }

  /** The same, coordinate by coordinate. */
  predicate VecTaken(r: Vec3, source: PartialVec3, before: Vec3) {
    Taken(r.x, source.x, before.x) && Taken(r.y, source.y, before.y) && Taken(r.z, source.z, before.z)
  }

  predicate QuaternionTaken(r: Quaternion, source: PartialQuaternion, before: Quaternion) {
    && Taken(r.u0, source.u0, before.u0) && Taken(r.u1, source.u1, before.u1)
    && Taken(r.u2, source.u2, before.u2) && Taken(r.u3, source.u3, before.u3)
  }

  /** The Euler angles decide if they are present, else the quaternion does, else nothing changes. */
  ghost predicate OrientationTaken(m: Math, r: Quaternion, source: Orientation, before: Quaternion) {
    if source.euler.Present? then
      forall e: Vec3 :: VecTaken(e, source.euler.value, m.toEuler(before)) ==> r == m.normalize(m.toQuaternion(e))
    else if source.quaternion.Present? then
      forall q: Quaternion :: QuaternionTaken(q, source.quaternion.value, before) ==> r == m.normalize(q)
    else
      r == before
  }

  /** Every coordinate is copied to the one of its name. */
  lemma CopiesVec(target: Vec3, source: PartialVec3)
    ensures VecTaken(CopyPresentVec(target, source), source, target)
  {
  }

  lemma CopiesOrientation(m: Math, target: Quaternion, source: Orientation)
    ensures OrientationTaken(m, CopyPresentOrientation(m, target, source), source, target)
  {
  }

  function DotProduct(p: Quaternion, q: Quaternion): real {
    p.u0 * q.u0 + p.u1 * q.u1 + p.u2 * q.u2 + p.u3 * q.u3
  }

  // ------------------------------------------------------------------
  // Joint values
  // ------------------------------------------------------------------

  function Zeros(n: nat): Joints {
    seq(n, _ => 0.0)
  }

  /** `reset` for joint values. */
  method ResetJoints(n: nat) returns (joints: Joints)
    ensures joints == Zeros(n)
  {
    joints := [];
    for i := 0 to n
      invariant joints == Zeros(i)
    {
      joints := joints + [0.0];
    }
  }

  /** What `copyPresent` leaves in the target: the source where it has a value, the target elsewhere. */
  function CopyPresent(target: Joints, source: Joints): (r: Joints)
    ensures |r| == |target|
  {
    seq(|target|, i requires 0 <= i < |target| => if i < |source| then source[i] else target[i])
  }

  /** The joints the source has are taken from it, the others stay. */
  predicate JointsTaken(r: Joints, source: Joints, before: Joints) {
    |r| == |before| && forall i :: 0 <= i < |r| ==> r[i] == if i < |source| then source[i] else before[i]
  }

  method CopyPresentJoints(target: Joints, source: Joints) returns (r: Joints)
    ensures r == CopyPresent(target, source) && JointsTaken(r, source, target)
  {
    r := target;
    var i := 0;
    while i < |source| && i < |r|
      invariant 0 <= i <= MinSize(|source|, |target|)
      invariant |r| == |target|
      invariant forall k :: 0 <= k < i ==> r[k] == source[k]
      invariant forall k :: i <= k < |r| ==> r[k] == target[k]
    {
      r := r[i := source[i]];
      i := i + 1;
    }
  }

  function Scale(joints: Joints, factor: real): Joints {
    seq(|joints|, i requires 0 <= i < |joints| => joints[i] * factor)
  }

  /** `multiply` on joint values. */
  method MultiplyJoints(joints: Joints, factor: real) returns (r: Joints)
    ensures r == Scale(joints, factor)
  {
    r := joints;
    for i := 0 to |joints|
      invariant |r| == |joints|
      invariant forall k :: 0 <= k < i ==> r[k] == Scale(joints, factor)[k]
      invariant forall k :: i <= k < |r| ==> r[k] == joints[k]
    {
      r := r[i := r[i] * factor];
    }
  }

  /** Every pair of joint values that both sides have is closer than `condition`. */
  predicate AllClose(p: Joints, q: Joints, condition: real) {
    forall i :: 0 <= i < |p| && i < |q| ==> Abs(p[i] - q[i]) < condition
  }

  method CheckConditions(met: bool, p: Joints, q: Joints, condition: real) returns (r: bool)
    ensures r == (met && AllClose(p, q, condition))
  {
    r := met;
    var i := 0;
    while r && i < |p| && i < |q|
      invariant 0 <= i <= MinSize(|p|, |q|)
      invariant r ==> met && forall k :: 0 <= k < i ==> Abs(p[k] - q[k]) < condition
      invariant !r ==> !(met && AllClose(p, q, condition))
      decreases MinSize(|p|, |q|) - i
    {
      r := Abs(p[i] - q[i]) < condition;
      i := i + 1;
    }
  }

  /** The largest difference among the first `n` joints. */
  function MaxDifferenceOf(p: Joints, q: Joints, n: nat): real
    requires n <= |p| && n <= |q|
  {
    if n == 0 then 0.0 else Max(MaxDifferenceOf(p, q, n - 1), Abs(p[n - 1] - q[n - 1]))
  }

  function MaxDifference(p: Joints, q: Joints): real {
    MaxDifferenceOf(p, q, MinSize(|p|, |q|))
  }

  /** The maximum is an upper bound of all differences, and is attained unless it is zero. */
  lemma {:induction false} MaxDifferenceIsMaximum(p: Joints, q: Joints, n: nat)
    requires n <= |p| && n <= |q|
    ensures forall i :: 0 <= i < n ==> Abs(p[i] - q[i]) <= MaxDifferenceOf(p, q, n)
    ensures MaxDifferenceOf(p, q, n) >= 0.0
    ensures MaxDifferenceOf(p, q, n) == 0.0 || exists i :: 0 <= i < n && Abs(p[i] - q[i]) == MaxDifferenceOf(p, q, n)
  {
    if n > 0 {
      MaxDifferenceIsMaximum(p, q, n - 1);
      if MaxDifferenceOf(p, q, n) == Abs(p[n - 1] - q[n - 1]) {
        assert 0 <= n - 1 < n && Abs(p[n - 1] - q[n - 1]) == MaxDifferenceOf(p, q, n);
      }
    }
  }

  /** `findMaxDifference` for joint values. */
  method FindMaxDifference(p: Joints, q: Joints) returns (r: real)
    ensures r == MaxDifference(p, q)
    ensures forall i :: 0 <= i < |p| && i < |q| ==> Abs(p[i] - q[i]) <= r
    ensures r == 0.0 || exists i :: 0 <= i < |p| && i < |q| && Abs(p[i] - q[i]) == r
  {
    r := 0.0;
    var i := 0;
    while i < |p| && i < |q|
      invariant 0 <= i <= MinSize(|p|, |q|)
      invariant r == MaxDifferenceOf(p, q, i)
    {
      r := Max(r, Abs(p[i] - q[i]));
      i := i + 1;
    }
    MaxDifferenceIsMaximum(p, q, i);
  }

  /** `findMaxDifference` for Cartesian values and Euler angles. */
  function MaxDifferenceVec(v: Vec3, w: Vec3): real {
    Max(Max(Abs(v.x - w.x), Abs(v.y - w.y)), Abs(v.z - w.z))
  }

  /** `estimateVelocities` for joint values: a difference quotient for every joint both samples have. */
  function JointVelocities(current: Joints, previous: Joints, sampleTime: real): (r: Joints)
    requires sampleTime > 0.0
    ensures |r| == MinSize(|current|, |previous|)
  {
    seq(MinSize(|current|, |previous|),
      i requires 0 <= i < MinSize(|current|, |previous|) => (current[i] - previous[i]) / sampleTime)
  }

  /** Reports failure, and estimates nothing, for a sample time that is not positive. */
  method EstimateJointVelocities(current: Joints, previous: Joints, sampleTime: real)
    returns (success: bool, estimate: Joints)
    ensures success == (sampleTime > 0.0)
    ensures success ==> estimate == JointVelocities(current, previous, sampleTime)
  {
    success, estimate := false, [];
    if sampleTime > 0.0 {
      var i := 0;
      while i < |current| && i < |previous|
        invariant 0 <= i <= MinSize(|current|, |previous|)
        invariant |estimate| == i
        invariant forall k :: 0 <= k < i ==> estimate[k] == (current[k] - previous[k]) / sampleTime
      {
        estimate := estimate + [(current[i] - previous[i]) / sampleTime];
        i := i + 1;
      }
      success := true;
    }
  }
}
