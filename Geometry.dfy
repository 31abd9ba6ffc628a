/** Vector arithmetic over exact reals and the cutting-plane derivation of
    SliceObject.Slice: the plane through the blade's end point whose normal is
    the cross product of the blade trajectory and the blade velocity. */
module Geometry {
  import opened Options

  datatype Vec3 = Vec3(x: real, y: real, z: real)

  function Sub(a: Vec3, b: Vec3): Vec3 {
    Vec3(a.x - b.x, a.y - b.y, a.z - b.z)
  }

  function Neg(a: Vec3): Vec3 {
    Vec3(-a.x, -a.y, -a.z)
  }

  function Scale(k: real, a: Vec3): Vec3 {
    Vec3(k * a.x, k * a.y, k * a.z)
  }

  function Dot(a: Vec3, b: Vec3): real {
    a.x * b.x + a.y * b.y + a.z * b.z
  }

  /** Unity's Vector3.Cross (left-handed coordinates, same formula). */
  function Cross(a: Vec3, b: Vec3): Vec3 {
    Vec3(a.y * b.z - a.z * b.y, a.z * b.x - a.x * b.z, a.x * b.y - a.y * b.x)
  }

  /** The cross product is perpendicular to both of its arguments. */
  lemma CrossPerpendicular(a: Vec3, b: Vec3)
    ensures Dot(Cross(a, b), a) == 0.0 && Dot(Cross(a, b), b) == 0.0
  {
  }

  /** Vector3.sqrMagnitude */
  function SqrMag(a: Vec3): real {
    a.x * a.x + a.y * a.y + a.z * a.z
  }

  /** The unit vector raw / |raw|, kept symbolic: square roots are not
      computable over exact reals, so `Unit(raw)` stands for the result of
      normalising `raw` and `Denotes` says which vector that is. */
  datatype Direction = Unit(raw: Vec3)

  /** `-d`: normalising the negated vector gives the negated unit vector. */
  function Opposite(d: Direction): Direction {
    Unit(Neg(d.raw))
  }

  /** u is the unit vector that d stands for: unit length, and a positive
      multiple of it is the vector that was normalised. */
  ghost predicate Denotes(d: Direction, u: Vec3) {
    SqrMag(u) == 1.0 && exists k: real :: k > 0.0 && d.raw == Scale(k, u)
  }

  /** A direction stands for at most one unit vector. */
  lemma DenotesUnique(d: Direction, u: Vec3, w: Vec3)
    requires Denotes(d, u) && Denotes(d, w)
    ensures u == w
  {
    var k :| k > 0.0 && d.raw == Scale(k, u);
    var j :| j > 0.0 && d.raw == Scale(j, w);
    SqrMagScale(k, u);
    SqrMagScale(j, w);
    assert k * k == j * j;
    PositiveSquareRootUnique(k, j);
    Unscale(k, u);
    Unscale(k, w);
  }

  lemma PositiveSquareRootUnique(k: real, j: real)
    requires k > 0.0 && j > 0.0 && k * k == j * j
    ensures k == j
  {
    assert (k - j) * (k + j) == k * k - j * j;
    ZeroFactor(k - j, k + j);
  }

  lemma ZeroFactor(x: real, y: real)
    requires y > 0.0 && x * y == 0.0
    ensures x == 0.0
  {
    assert x == (x * y) / y;
  }

  lemma Unscale(k: real, u: Vec3)
    requires k > 0.0
    ensures Scale(1.0 / k, Scale(k, u)) == u
  {
    assert (1.0 / k) * (k * u.x) == u.x;
    assert (1.0 / k) * (k * u.y) == u.y;
    assert (1.0 / k) * (k * u.z) == u.z;
  }

  lemma SqrMagScale(k: real, a: Vec3)
    ensures SqrMag(Scale(k, a)) == k * k * SqrMag(a)
  {
    calc {
      SqrMag(Scale(k, a));
      (k * a.x) * (k * a.x) + (k * a.y) * (k * a.y) + (k * a.z) * (k * a.z);
      k * k * (a.x * a.x) + k * k * (a.y * a.y) + k * k * (a.z * a.z);
      k * k * SqrMag(a);
    }
  }

  /** Normalising a vector that already has unit length gives it back. */
  lemma UnitDenotesItself(u: Vec3)
    requires SqrMag(u) == 1.0
    ensures Denotes(Unit(u), u)
  {
    assert u == Scale(1.0, u);
  }

  /** The opposite direction stands for the negated unit vector. */
  lemma DenotesOpposite(d: Direction, u: Vec3)
    requires Denotes(d, u)
    ensures Denotes(Opposite(d), Neg(u))
  {
    var k :| k > 0.0 && d.raw == Scale(k, u);
    assert Opposite(d).raw == Scale(k, Neg(u));
  }

  /** The threshold `1e-4f` under which the cut normal is rejected. */
  const Epsilon: real := 0.0001

  /** A cutting plane: the point it passes through and its unit normal. */
  datatype Plane = Plane(point: Vec3, normal: Direction)

  /** The plane SliceObject.Slice cuts along: None when the squared length of
      cross(end - start, velocity) is below Epsilon (trajectory and velocity
      nearly parallel); otherwise a plane through the blade's end point. */
  function CutPlane(start: Vec3, end: Vec3, velocity: Vec3): (r: Option<Plane>)
    ensures r.None? <==> SqrMag(Cross(Sub(end, start), velocity)) < Epsilon
    ensures r.Some? ==> r.value.point == end
  {
    var normal := Cross(Sub(end, start), velocity);
    if SqrMag(normal) < Epsilon then None else Some(Plane(end, Unit(normal)))
  }

  /** An accepted plane's normal is normalised from a vector that is not
      near zero and is perpendicular to both the trajectory and the velocity,
      so the plane contains the blade's sweep line and its direction of motion. */
  lemma CutPlaneNormal(start: Vec3, end: Vec3, velocity: Vec3)
    requires CutPlane(start, end, velocity).Some?
    ensures var n := CutPlane(start, end, velocity).value.normal.raw;
      && SqrMag(n) >= Epsilon
      && Dot(n, Sub(end, start)) == 0.0
      && Dot(n, velocity) == 0.0
  {
    CrossPerpendicular(Sub(end, start), velocity);
  }

  /** When the cross product is a known, non-degenerate vector n, the plane
      goes through the end point with normal Normalize(n). */
  lemma CutPlaneOf(start: Vec3, end: Vec3, velocity: Vec3, n: Vec3)
    requires Cross(Sub(end, start), velocity) == n && SqrMag(n) >= Epsilon
    ensures CutPlane(start, end, velocity) == Some(Plane(end, Unit(n)))
  {
  }

  /** A blade moving along its own trajectory never cuts. */
  lemma ParallelMotionIsRejected(start: Vec3, end: Vec3, k: real)
    ensures CutPlane(start, end, Scale(k, Sub(end, start))).None?
  {
    var t := Sub(end, start);
    assert Cross(t, Scale(k, t)) == Vec3(0.0, 0.0, 0.0);
  }

  /** Trajectory (1,0,0) with velocity (2,0,0) is rejected. (The examples take
      their vectors as parameters fixed by `requires`, which keeps the solver
      from unfolding the definitions on literals.) */
  lemma CollinearExample(start: Vec3, end: Vec3, velocity: Vec3)
    requires start == Vec3(0.0, 0.0, 0.0) && end == Vec3(1.0, 0.0, 0.0)
    requires velocity == Vec3(2.0, 0.0, 0.0)
    ensures CutPlane(start, end, velocity).None?
  {
  }
}
