/** Joint detection between tube members represented by their centre-lines:
    closest approach of two lines, rejection by margin and distance,
    classification of the joint, and the choice of which member carries the tab. */
module JointDetector {
  import opened Wrappers
  import opened Numeric
  import PairScan
  import BoxGenerator

  datatype JointType = TJoint | Corner | Cross | Inline | Skew

  datatype TabPosition = Top | Bottom | Left | Right

  /** A member as a segment along its centre-line, with its tube cross-section. */
  datatype MemberAxis = MemberAxis(memberId: string, start: Vec3, end: Vec3, width: real, height: real)

  /** A joint: `memberA` receives the slot, `memberB` carries the tab; the
      parameters locate the joint along each of them (0 = start, 1 = end). */
  datatype Joint = Joint(
    jointType: JointType,
    memberA: MemberAxis,
    memberB: MemberAxis,
    intersectionPoint: Vec3,
    paramA: real,
    paramB: real,
    tabFace: TabPosition,
    slotFace: TabPosition)

  // ---------------------------------------------------------------------------
  // Vector helpers

  function Dot(a: Vec3, b: Vec3): real
  {
    a.x * b.x + a.y * b.y + a.z * b.z
  }

  /** The cross product is orthogonal to both of its factors. */
  function CrossProduct(a: Vec3, b: Vec3): (c: Vec3)
    ensures Dot(c, a) == 0.0 && Dot(c, b) == 0.0
  {
    Vec3(a.y * b.z - a.z * b.y, a.z * b.x - a.x * b.z, a.x * b.y - a.y * b.x)
  }

  /** a - b: the vector that takes b to a. */
  function Subtract(a: Vec3, b: Vec3): Vec3
  {
    Vec3(a.x - b.x, a.y - b.y, a.z - b.z)
  }

  /** The point p + t·d. */
  function Along(p: Vec3, t: real, d: Vec3): Vec3
  {
    Vec3(p.x + t * d.x, p.y + t * d.y, p.z + t * d.z)
  }

  function Norm(v: Vec3, sqrt: real -> real): real
  {
    sqrt(Dot(v, v))
  }

  /** The distance between two points: the norm of their difference, written
      on the coordinates. */
  function Distance(p: Vec3, q: Vec3, sqrt: real -> real): real
  {
    sqrt(SquaredDistance(p, q))
  }

  function SquaredDistance(p: Vec3, q: Vec3): real
  {
    (p.x - q.x) * (p.x - q.x) + (p.y - q.y) * (p.y - q.y) + (p.z - q.z) * (p.z - q.z)
  }

  lemma DistanceIsNorm(p: Vec3, q: Vec3, sqrt: real -> real)
    ensures Distance(p, q, sqrt) == Norm(Subtract(p, q), sqrt)
  {
    var g := Subtract(p, q);
    assert Dot(g, g) == SquaredDistance(p, q);
  }

  lemma DotSelfNonNegative(v: Vec3)
    ensures 0.0 <= Dot(v, v)
  {
    var xx, yy, zz := v.x * v.x, v.y * v.y, v.z * v.z;
    assert 0.0 <= xx && 0.0 <= yy && 0.0 <= zz;
  }

  /** The norm is a length: non-negative, and its square is v·v. */
  lemma NormSquared(v: Vec3, sqrt: real -> real)
    requires IsSqrt(sqrt)
    ensures 0.0 <= Norm(v, sqrt) && Norm(v, sqrt) * Norm(v, sqrt) == Dot(v, v)
  {
    DotSelfNonNegative(v);
  }

  /** A vector whose square length is r·r (r >= 0) has norm r. */
  lemma NormExact(v: Vec3, r: real, sqrt: real -> real)
    requires IsSqrt(sqrt)
    requires 0.0 <= r && Dot(v, v) == r * r
    ensures Norm(v, sqrt) == r
  {
    NormSquared(v, sqrt);
    var s := Norm(v, sqrt);
    if s < r {
      SquareStrictMono(s, r);
    } else if r < s {
      SquareStrictMono(r, s);
    }
  }

  // ---------------------------------------------------------------------------
  // MemberAxis properties

  function Length(m: MemberAxis, sqrt: real -> real): real
  {
    Norm(Subtract(m.end, m.start), sqrt)
  }

  /** Unit vector from start to end, or +Z for a degenerate member. */
  function Direction(m: MemberAxis, sqrt: real -> real): (d: Vec3)
    ensures Length(m, sqrt) < 0.000001 ==> d == Vec3(0.0, 0.0, 1.0)
  {
    var raw := Subtract(m.end, m.start);
    var len := Norm(raw, sqrt);
    if len < 0.000001 then Vec3(0.0, 0.0, 1.0)
    else Vec3(raw.x / len, raw.y / len, raw.z / len)
  }

  /** A raw vector divided by its positive norm is a unit vector. */
  lemma ScaledIsUnit(raw: Vec3, len: real)
    requires 0.0 < len && len * len == Dot(raw, raw)
    ensures Dot(Vec3(raw.x / len, raw.y / len, raw.z / len), Vec3(raw.x / len, raw.y / len, raw.z / len)) == 1.0
    ensures Along(Vec3(0.0, 0.0, 0.0), len, Vec3(raw.x / len, raw.y / len, raw.z / len)) == raw
  {
    var u := Vec3(raw.x / len, raw.y / len, raw.z / len);
    assert raw.x == len * u.x && raw.y == len * u.y && raw.z == len * u.z;
    var uu := Dot(u, u);
    var sq := len * len;
    assert Dot(raw, raw) == sq * uu;
    assert sq * (uu - 1.0) == 0.0;
    assert sq != 0.0 by {
      if sq == 0.0 {
        ProductZero(len, len);
      }
    }
    ProductZero(sq, uu - 1.0);
  }

  /** A member of length at least 1e-6 has a unit direction that leads from its
      start to its end in `Length` steps. */
  lemma DirectionIsUnit(m: MemberAxis, sqrt: real -> real)
    requires IsSqrt(sqrt)
    requires 0.000001 <= Length(m, sqrt)
    ensures Dot(Direction(m, sqrt), Direction(m, sqrt)) == 1.0
    ensures Along(m.start, Length(m, sqrt), Direction(m, sqrt)) == m.end
  {
    var raw := Subtract(m.end, m.start);
    NormSquared(raw, sqrt);
    ScaledIsUnit(raw, Norm(raw, sqrt));
  }

  /** The direction is a unit vector whatever the member: the degenerate
      fallback +Z is one too. */
  lemma DirectionAlwaysUnit(m: MemberAxis, sqrt: real -> real)
    requires IsSqrt(sqrt)
    ensures Dot(Direction(m, sqrt), Direction(m, sqrt)) == 1.0
  {
    if 0.000001 <= Length(m, sqrt) {
      DirectionIsUnit(m, sqrt);
    }
  }

  /** The point at parameter t: 0 is the start and 1 is the end. */
  function PointAtParam(m: MemberAxis, t: real): (p: Vec3)
    ensures t == 0.0 ==> p == m.start
    ensures t == 1.0 ==> p == m.end
  {
    Along(m.start, t, Subtract(m.end, m.start))
  }

  /** The midpoint is the point at parameter one half. */
  function Midpoint(m: MemberAxis): (p: Vec3)
    ensures p == PointAtParam(m, 0.5)
  {
    Vec3((m.start.x + m.end.x) / 2.0, (m.start.y + m.end.y) / 2.0, (m.start.z + m.end.z) / 2.0)
  }

  const DefaultAxisTolerance := 0.01

  predicate IsVertical(m: MemberAxis, tol: real, sqrt: real -> real)
  {
    Abs(Direction(m, sqrt).z) > 1.0 - tol
  }

  predicate IsHorizontalX(m: MemberAxis, tol: real, sqrt: real -> real)
  {
    Abs(Direction(m, sqrt).x) > 1.0 - tol
  }

  predicate IsHorizontalY(m: MemberAxis, tol: real, sqrt: real -> real)
  {
    Abs(Direction(m, sqrt).y) > 1.0 - tol
  }

  /** A degenerate member counts as vertical, and as neither horizontal kind,
      for any tolerance in (0, 1]. */
  lemma DegenerateIsVertical(m: MemberAxis, tol: real, sqrt: real -> real)
    requires Length(m, sqrt) < 0.000001 && 0.0 < tol <= 1.0
    ensures IsVertical(m, tol, sqrt) && !IsHorizontalX(m, tol, sqrt) && !IsHorizontalY(m, tol, sqrt)
  {
  }

  predicate IsEndParam(t: real)
  {
    t < 0.01 || t > 0.99
  }

  predicate IsEndJointA(j: Joint) { IsEndParam(j.paramA) }

  predicate IsEndJointB(j: Joint) { IsEndParam(j.paramB) }

  // ---------------------------------------------------------------------------
  // Closest approach of two lines p1 + t1·d1 and p2 + t2·d2

  datatype ClosestApproach = ClosestApproach(t1: real, t2: real, dist: real)

  /** a·c - b·b for a = d1·d1, b = d1·d2, c = d2·d2: zero for parallel lines. */
  function Denominator(d1: Vec3, d2: Vec3): real
  {
    Dot(d1, d1) * Dot(d2, d2) - Dot(d1, d2) * Dot(d1, d2)
  }

  predicate NearlyParallel(d1: Vec3, d2: Vec3)
  {
    Abs(Denominator(d1, d2)) < 0.0000000001
  }

  /** The line parameters of the two closest points, from a = d1·d1, b = d1·d2,
      c = d2·d2, d = d1·w0, e = d2·w0 (w0 = p1 - p2). Parallel lines keep
      t1 = 0 and project onto the second line when b is not zero. */
  function ClosestParams(a: real, b: real, c: real, d: real, e: real): (real, real)
  {
    var denom := a * c - b * b;
    if Abs(denom) < 0.0000000001 then (0.0, if Abs(b) > 0.0000000001 then d / b else 0.0)
    else ((b * e - c * d) / denom, (a * e - b * d) / denom)
  }

  /** The parameters of the closest points of two lines and their distance:
      the length of the segment joining the point at `t1` on the first line to
      the point at `t2` on the second. */
  function ClosestPointsOnLines(p1: Vec3, d1: Vec3, p2: Vec3, d2: Vec3, sqrt: real -> real): (r: ClosestApproach)
    ensures r.dist == Norm(Subtract(Along(p1, r.t1, d1), Along(p2, r.t2, d2)), sqrt)
  {
    var w0 := Subtract(p1, p2);
    var ts := ClosestParams(Dot(d1, d1), Dot(d1, d2), Dot(d2, d2), Dot(d1, w0), Dot(d2, w0));
    var pt1 := Along(p1, ts.0, d1);
    var pt2 := Along(p2, ts.1, d2);
    DistanceIsNorm(pt1, pt2, sqrt);
    ClosestApproach(ts.0, ts.1, Distance(pt1, pt2, sqrt))
  }

  /** The vector between the two points, expanded: w0 + t1·d1 - t2·d2. */
  lemma GapDot(p1: Vec3, d1: Vec3, p2: Vec3, d2: Vec3, t1: real, t2: real, v: Vec3)
    ensures Dot(Subtract(Along(p1, t1, d1), Along(p2, t2, d2)), v)
         == Dot(v, Subtract(p1, p2)) + t1 * Dot(d1, v) - t2 * Dot(d2, v)
  {
  }

  /** Away from the parallel case the parameters solve the two normal
      equations d + t1·a - t2·b = 0 and e + t1·b - t2·c = 0. */
  lemma ClosestParamsSolve(a: real, b: real, c: real, d: real, e: real)
    requires Abs(a * c - b * b) >= 0.0000000001
    ensures var ts := ClosestParams(a, b, c, d, e);
      d + ts.0 * a - ts.1 * b == 0.0 && e + ts.0 * b - ts.1 * c == 0.0
  {
    var denom := a * c - b * b;
    var t1 := (b * e - c * d) / denom;
    var t2 := (a * e - b * d) / denom;
    assert t1 * denom == b * e - c * d;
    assert t2 * denom == a * e - b * d;
    var g1 := d + t1 * a - t2 * b;
    var g2 := e + t1 * b - t2 * c;
    assert g1 * denom == d * denom + (t1 * denom) * a - (t2 * denom) * b;
    assert g2 * denom == e * denom + (t1 * denom) * b - (t2 * denom) * c;
    assert g1 * denom == 0.0;
    assert g2 * denom == 0.0;
  }

  /** For non-parallel lines the segment joining the two returned points is
      orthogonal to both lines, so the points are the closest pair. */
  lemma ClosestPointsAreOrthogonal(p1: Vec3, d1: Vec3, p2: Vec3, d2: Vec3, sqrt: real -> real)
    requires !NearlyParallel(d1, d2)
    ensures var c := ClosestPointsOnLines(p1, d1, p2, d2, sqrt);
      var gap := Subtract(Along(p1, c.t1, d1), Along(p2, c.t2, d2));
      Dot(gap, d1) == 0.0 && Dot(gap, d2) == 0.0
  {
    var w0 := Subtract(p1, p2);
    var a, b, c, d, e := Dot(d1, d1), Dot(d1, d2), Dot(d2, d2), Dot(d1, w0), Dot(d2, w0);
    var ts := ClosestParams(a, b, c, d, e);
    assert Denominator(d1, d2) == a * c - b * b;
    ClosestParamsSolve(a, b, c, d, e);
    var cp := ClosestPointsOnLines(p1, d1, p2, d2, sqrt);
    assert cp.t1 == ts.0 && cp.t2 == ts.1;
    var gap := Subtract(Along(p1, ts.0, d1), Along(p2, ts.1, d2));
    assert Dot(gap, d1) == 0.0 by {
      GapDot(p1, d1, p2, d2, ts.0, ts.1, d1);
    }
    assert Dot(gap, d2) == 0.0 by {
      GapDot(p1, d1, p2, d2, ts.0, ts.1, d2);
      assert Dot(d2, w0) == e && Dot(d1, d2) == b && Dot(d2, d2) == c;
    }
  }

  /** Swapping the lines (w0 becomes -w0, so d and e change sign) swaps the
      parameters when the lines are not parallel. */
  lemma ClosestParamsSwap(a: real, b: real, c: real, d: real, e: real)
    requires Abs(a * c - b * b) >= 0.0000000001
    ensures var ts := ClosestParams(a, b, c, d, e);
      ClosestParams(c, b, a, -e, -d) == (ts.1, ts.0)
  {
    assert c * a - b * b == a * c - b * b;
  }

  lemma ClosestDistanceNonNegative(p1: Vec3, d1: Vec3, p2: Vec3, d2: Vec3, sqrt: real -> real)
    requires IsSqrt(sqrt)
    ensures 0.0 <= ClosestPointsOnLines(p1, d1, p2, d2, sqrt).dist
  {
    var c := ClosestPointsOnLines(p1, d1, p2, d2, sqrt);
    DistanceIsNorm(Along(p1, c.t1, d1), Along(p2, c.t2, d2), sqrt);
    NormSquared(Subtract(Along(p1, c.t1, d1), Along(p2, c.t2, d2)), sqrt);
  }

  /** For non-parallel lines, swapping the two lines swaps the parameters and
      keeps the distance. */
  lemma DotComm(u: Vec3, v: Vec3)
    ensures Dot(u, v) == Dot(v, u)
  {
  }

  lemma DotSubtractSwap(u: Vec3, p: Vec3, q: Vec3)
    ensures Dot(u, Subtract(q, p)) == -Dot(u, Subtract(p, q))
  {
  }

  lemma DistanceSymmetric(p: Vec3, q: Vec3, sqrt: real -> real)
    ensures Distance(q, p, sqrt) == Distance(p, q, sqrt)
  {
    assert (q.x - p.x) * (q.x - p.x) == (p.x - q.x) * (p.x - q.x);
    assert (q.y - p.y) * (q.y - p.y) == (p.y - q.y) * (p.y - q.y);
    assert (q.z - p.z) * (q.z - p.z) == (p.z - q.z) * (p.z - q.z);
  }

  lemma ClosestPointsSwap(p1: Vec3, d1: Vec3, p2: Vec3, d2: Vec3, sqrt: real -> real)
    requires !NearlyParallel(d1, d2)
    ensures var c := ClosestPointsOnLines(p1, d1, p2, d2, sqrt);
      ClosestPointsOnLines(p2, d2, p1, d1, sqrt) == ClosestApproach(c.t2, c.t1, c.dist)
  {
    var w0, w1 := Subtract(p1, p2), Subtract(p2, p1);
    var a, b, c, d, e := Dot(d1, d1), Dot(d1, d2), Dot(d2, d2), Dot(d1, w0), Dot(d2, w0);
    var ts := ClosestParams(a, b, c, d, e);
    assert Denominator(d1, d2) == a * c - b * b;
    ClosestParamsSwap(a, b, c, d, e);
    DotComm(d2, d1);
    DotSubtractSwap(d2, p1, p2);
    DotSubtractSwap(d1, p1, p2);
    assert ClosestParams(Dot(d2, d2), Dot(d2, d1), Dot(d1, d1), Dot(d2, w1), Dot(d1, w1)) == (ts.1, ts.0);
    DistanceSymmetric(Along(p1, ts.0, d1), Along(p2, ts.1, d2), sqrt);
  }

  // ---------------------------------------------------------------------------
  // find_intersection

  /** The unit direction find_intersection uses: raw / len when len > 1e-6,
      otherwise +Z. */
  function UnitOrUp(raw: Vec3, len: real): Vec3
  {
    if len > 0.000001 then Vec3(raw.x / len, raw.y / len, raw.z / len) else Vec3(0.0, 0.0, 1.0)
  }

  /** A line parameter in mm converted to a segment parameter (0 at start, 1 at end). */
  function SegmentParam(t: real, len: real): real
  {
    if len > 0.000001 then t / len else 0.0
  }

  /** Half the tube width plus the tolerance, as a fraction of the length. */
  function Margin(width: real, tol: real, len: real): real
  {
    if len > 0.000001 then (width / 2.0 + tol) / len else 0.0
  }

  function Clamp01(t: real): (c: real)
    ensures 0.0 <= c <= 1.0
    ensures 0.0 <= t <= 1.0 ==> c == t
  {
    Max(0.0, Min(1.0, t))
  }

  /** The direction find_intersection uses for a member. */
  function LineDirection(m: MemberAxis, sqrt: real -> real): Vec3
  {
    UnitOrUp(Subtract(m.end, m.start), Length(m, sqrt))
  }

  /** Everything find_intersection computes before it decides. */
  datatype Approach = Approach(
    rawParamA: real, rawParamB: real, marginA: real, marginB: real, dist: real, dotAbs: real)

  function Analyze(a: MemberAxis, b: MemberAxis, tol: real, sqrt: real -> real): Approach
  {
    var len1 := Length(a, sqrt);
    var len2 := Length(b, sqrt);
    var d1 := LineDirection(a, sqrt);
    var d2 := LineDirection(b, sqrt);
    var c := ClosestPointsOnLines(a.start, d1, b.start, d2, sqrt);
    Approach(SegmentParam(c.t1, len1), SegmentParam(c.t2, len2),
             Margin(a.width, tol, len1), Margin(b.width, tol, len2),
             c.dist, Abs(Dot(d1, d2)))
  }

  predicate WithinMargin(t: real, margin: real)
  {
    -margin <= t <= 1.0 + margin
  }

  /** The classification table on |d1·d2| and the two clamped parameters. */
  function Classify(dotAbs: real, pa: real, pb: real): JointType
  {
    if dotAbs > 0.99 then Inline
    else if dotAbs < 0.01 then
      if IsEndParam(pa) then (if IsEndParam(pb) then Corner else TJoint)
      else if IsEndParam(pb) then TJoint
      else Cross
    else Skew
  }

  /** The decision find_intersection takes once the approach is known. */
  function Decide(a: MemberAxis, b: MemberAxis, tol: real, ap: Approach): (r: Option<Joint>)
    ensures r.Some? <==> WithinMargin(ap.rawParamA, ap.marginA) && WithinMargin(ap.rawParamB, ap.marginB)
                         && ap.dist <= tol + (a.width + b.width) / 2.0
    ensures r.Some? ==> 0.0 <= r.value.paramA <= 1.0 && 0.0 <= r.value.paramB <= 1.0
    ensures r.Some? ==> r.value.intersectionPoint == PointAtParam(a, Clamp01(ap.rawParamA))
    ensures r.Some? ==> r.value.tabFace == Top && r.value.slotFace == Top
  {
    if !WithinMargin(ap.rawParamA, ap.marginA) || !WithinMargin(ap.rawParamB, ap.marginB) then None
    else if ap.dist > tol + (a.width + b.width) / 2.0 then None
    else
      var pa := Clamp01(ap.rawParamA);
      var pb := Clamp01(ap.rawParamB);
      var slotMember := if IsEndParam(pb) then a else b;
      var tabMember := if IsEndParam(pb) then b else a;
      Some(Joint(Classify(ap.dotAbs, pa, pb), slotMember, tabMember, PointAtParam(a, pa),
                 if slotMember == a then pa else pb,
                 if tabMember == b then pb else pa,
                 Top, Top))
  }

  /** The joint between two members, if their centre-lines come close enough
      within both segments (widened by half a tube and the tolerance). */
  function FindIntersection(a: MemberAxis, b: MemberAxis, tol: real, sqrt: real -> real): (r: Option<Joint>)
    ensures var ap := Analyze(a, b, tol, sqrt);
      r.Some? <==> WithinMargin(ap.rawParamA, ap.marginA) && WithinMargin(ap.rawParamB, ap.marginB)
                   && ap.dist <= tol + (a.width + b.width) / 2.0
    ensures r.Some? ==> 0.0 <= r.value.paramA <= 1.0 && 0.0 <= r.value.paramB <= 1.0
    ensures r.Some? ==> r.value.intersectionPoint == PointAtParam(a, Clamp01(Analyze(a, b, tol, sqrt).rawParamA))
    ensures r.Some? ==> r.value.tabFace == Top && r.value.slotFace == Top
  {
    Decide(a, b, tol, Analyze(a, b, tol, sqrt))
  }

  /** The joint type read off the returned joint's own parameters. */
  lemma JointClassification(a: MemberAxis, b: MemberAxis, tol: real, sqrt: real -> real)
    requires FindIntersection(a, b, tol, sqrt).Some?
    ensures var j := FindIntersection(a, b, tol, sqrt).value;
      var x := Analyze(a, b, tol, sqrt).dotAbs;
      (j.jointType == Inline <==> x > 0.99) &&
      (j.jointType == Skew <==> 0.01 <= x <= 0.99) &&
      (j.jointType == Corner <==> x < 0.01 && IsEndJointA(j) && IsEndJointB(j)) &&
      (j.jointType == TJoint <==> x < 0.01 && IsEndJointA(j) != IsEndJointB(j)) &&
      (j.jointType == Cross <==> x < 0.01 && !IsEndJointA(j) && !IsEndJointB(j))
  {
  }

  /** The second member carries the tab iff its parameter is at an end;
      otherwise the first one does and the parameters change places. */
  lemma TabBearerRule(a: MemberAxis, b: MemberAxis, tol: real, sqrt: real -> real)
    requires FindIntersection(a, b, tol, sqrt).Some?
    ensures var j := FindIntersection(a, b, tol, sqrt).value;
      var ap := Analyze(a, b, tol, sqrt);
      var pa, pb := Clamp01(ap.rawParamA), Clamp01(ap.rawParamB);
      (IsEndParam(pb) ==> j.memberA == a && j.memberB == b && j.paramA == pa && j.paramB == pb) &&
      (!IsEndParam(pb) ==> j.memberA == b && j.memberB == a &&
                           (a != b ==> j.paramA == pb && j.paramB == pa))
  {
  }

  /** At a corner the second argument is always the tab-bearer. */
  lemma CornerTabBearerIsSecond(a: MemberAxis, b: MemberAxis, tol: real, sqrt: real -> real)
    requires FindIntersection(a, b, tol, sqrt).Some?
    requires FindIntersection(a, b, tol, sqrt).value.jointType == Corner
    ensures FindIntersection(a, b, tol, sqrt).value.memberB == b
    ensures FindIntersection(a, b, tol, sqrt).value.memberA == a
  {
  }

  /** For members that are not parallel, swapping the arguments swaps every
      quantity find_intersection decides on. */
  lemma AnalyzeSwap(a: MemberAxis, b: MemberAxis, tol: real, sqrt: real -> real)
    requires !NearlyParallel(LineDirection(a, sqrt), LineDirection(b, sqrt))
    ensures var ap := Analyze(a, b, tol, sqrt);
      Analyze(b, a, tol, sqrt) == Approach(ap.rawParamB, ap.rawParamA, ap.marginB, ap.marginA, ap.dist, ap.dotAbs)
  {
    var d1, d2 := LineDirection(a, sqrt), LineDirection(b, sqrt);
    ClosestPointsSwap(a.start, d1, b.start, d2, sqrt);
    assert Dot(d2, d1) == Dot(d1, d2);
  }

  /** For members that are not parallel, whether a joint is found and its type
      do not depend on argument order; a T-joint also keeps its tab-bearer. */
  lemma FindIntersectionSwap(a: MemberAxis, b: MemberAxis, tol: real, sqrt: real -> real)
    requires !NearlyParallel(LineDirection(a, sqrt), LineDirection(b, sqrt))
    ensures FindIntersection(a, b, tol, sqrt).Some? == FindIntersection(b, a, tol, sqrt).Some?
    ensures FindIntersection(a, b, tol, sqrt).Some? ==>
      FindIntersection(a, b, tol, sqrt).value.jointType == FindIntersection(b, a, tol, sqrt).value.jointType
    ensures FindIntersection(a, b, tol, sqrt).Some? && FindIntersection(a, b, tol, sqrt).value.jointType == TJoint ==>
      FindIntersection(a, b, tol, sqrt).value.memberB == FindIntersection(b, a, tol, sqrt).value.memberB
  {
    AnalyzeSwap(a, b, tol, sqrt);
    var ap := Analyze(a, b, tol, sqrt);
    var pa, pb := Clamp01(ap.rawParamA), Clamp01(ap.rawParamB);
    assert Classify(ap.dotAbs, pa, pb) == Classify(ap.dotAbs, pb, pa);
  }

  /** Analyze in terms of the two lengths and the closest approach, so that a
      concrete case can be computed one quantity at a time. */
  lemma AnalyzeWith(a: MemberAxis, b: MemberAxis, tol: real, sqrt: real -> real,
                    len1: real, len2: real, d1: Vec3, d2: Vec3, c: ClosestApproach)
    requires Length(a, sqrt) == len1 && Length(b, sqrt) == len2
    requires LineDirection(a, sqrt) == d1 && LineDirection(b, sqrt) == d2
    requires ClosestPointsOnLines(a.start, d1, b.start, d2, sqrt) == c
    ensures Analyze(a, b, tol, sqrt) == Approach(SegmentParam(c.t1, len1), SegmentParam(c.t2, len2),
      Margin(a.width, tol, len1), Margin(b.width, tol, len2), c.dist, Abs(Dot(d1, d2)))
  {
  }

  /** The closest approach from the values of its five dot products and the
      gap between the two closest points. */
  lemma ClosestWith(p1: Vec3, d1: Vec3, p2: Vec3, d2: Vec3, sqrt: real -> real,
                    a: real, b: real, c: real, d: real, e: real, t1: real, t2: real, dist: real)
    requires Dot(d1, d1) == a && Dot(d1, d2) == b && Dot(d2, d2) == c
    requires Dot(d1, Subtract(p1, p2)) == d && Dot(d2, Subtract(p1, p2)) == e
    requires ClosestParams(a, b, c, d, e) == (t1, t2)
    requires Distance(Along(p1, t1, d1), Along(p2, t2, d2), sqrt) == dist
    ensures ClosestPointsOnLines(p1, d1, p2, d2, sqrt) == ClosestApproach(t1, t2, dist)
  {
  }

  /** What a square root function gives at one perfect square. */
  lemma SqrtAt(sqrt: real -> real, x: real, r: real)
    requires IsSqrt(sqrt)
    requires 0.0 <= r && r * r == x
    ensures sqrt(x) == r
  {
    SqrtOfSquare(sqrt, r);
  }

  // ---------------------------------------------------------------------------
  // Members laid along unit vectors: what find_intersection decides for them

  /** A member that runs a distance h > 1e-6 along a unit vector u has
      length h and line direction u. */
  lemma AxisAligned(m: MemberAxis, h: real, u: Vec3, sqrt: real -> real)
    requires IsSqrt(sqrt)
    requires Dot(u, u) == 1.0 && 0.000001 < h && m.end == Along(m.start, h, u)
    ensures Length(m, sqrt) == h && LineDirection(m, sqrt) == u
  {
    var raw := Subtract(m.end, m.start);
    assert raw == Vec3(h * u.x, h * u.y, h * u.z);
    assert Dot(raw, raw) == h * h * Dot(u, u);
    NormExact(raw, h, sqrt);
    assert UnitOrUp(raw, h) == Vec3(h * u.x / h, h * u.y / h, h * u.z / h);
  }

  lemma AlongZero(p: Vec3, d: Vec3)
    ensures Along(p, 0.0, d) == p
  {
  }

  /** Two parameterised points that coincide are at distance 0. */
  lemma MeetingGap(p1: Vec3, t1: real, d1: Vec3, p2: Vec3, t2: real, d2: Vec3, sqrt: real -> real)
    requires Along(p1, t1, d1) == Along(p2, t2, d2) && sqrt(0.0) == 0.0
    ensures Distance(Along(p1, t1, d1), Along(p2, t2, d2), sqrt) == 0.0
  {
    var a, b := Along(p1, t1, d1), Along(p2, t2, d2);
    assert SquaredDistance(a, b) == 0.0;
  }

  /** When p1 + x·u and p2 + s·v are the same point, p1 - p2 = s·v - x·u. */
  lemma OffsetDot(p1: Vec3, x: real, u: Vec3, p2: Vec3, s: real, v: Vec3, w: Vec3)
    requires Along(p1, x, u) == Along(p2, s, v)
    ensures Dot(w, Subtract(p1, p2)) == s * Dot(w, v) - x * Dot(w, u)
  {
    assert p1.x - p2.x == s * v.x - x * u.x;
    assert p1.y - p2.y == s * v.y - x * u.y;
    assert p1.z - p2.z == s * v.z - x * u.z;
  }

  lemma ClosestParamsPerpendicular(d: real, e: real)
    ensures ClosestParams(1.0, 0.0, 1.0, d, e) == (-d, e)
  {
  }

  lemma ClosestParamsParallel(d: real, e: real)
    ensures ClosestParams(1.0, 1.0, 1.0, d, e) == (0.0, d)
  {
  }

  /** Two perpendicular lines along unit vectors u and v that meet where the
      first reaches parameter x and the second parameter s. */
  lemma PerpendicularMeeting(p1: Vec3, x: real, u: Vec3, p2: Vec3, s: real, v: Vec3, sqrt: real -> real)
    requires Dot(u, u) == 1.0 && Dot(v, v) == 1.0 && Dot(u, v) == 0.0
    requires Along(p1, x, u) == Along(p2, s, v) && sqrt(0.0) == 0.0
    ensures ClosestPointsOnLines(p1, u, p2, v, sqrt) == ClosestApproach(x, s, 0.0)
  {
    DotComm(u, v);
    OffsetDot(p1, x, u, p2, s, v, u);
    OffsetDot(p1, x, u, p2, s, v, v);
    assert Dot(u, Subtract(p1, p2)) == -x;
    assert Dot(v, Subtract(p1, p2)) == s;
    ClosestParamsPerpendicular(-x, s);
    MeetingGap(p1, x, u, p2, s, v, sqrt);
    ClosestWith(p1, u, p2, v, sqrt, 1.0, 0.0, 1.0, -x, s, x, s, 0.0);
  }

  /** Two lines along the same unit vector u, the second starting q along the
      first: the first line keeps parameter 0 and the second is projected
      back to the first one's start. */
  lemma InlineMeeting(p1: Vec3, u: Vec3, q: real, p2: Vec3, sqrt: real -> real)
    requires Dot(u, u) == 1.0 && p2 == Along(p1, q, u) && sqrt(0.0) == 0.0
    ensures ClosestPointsOnLines(p1, u, p2, u, sqrt) == ClosestApproach(0.0, -q, 0.0)
  {
    assert Along(p1, 0.0, u) == Along(p2, -q, u);
    OffsetDot(p1, 0.0, u, p2, -q, u, u);
    assert Dot(u, Subtract(p1, p2)) == -q;
    ClosestParamsParallel(-q, -q);
    MeetingGap(p1, 0.0, u, p2, -q, u, sqrt);
    ClosestWith(p1, u, p2, u, sqrt, 1.0, 1.0, 1.0, -q, -q, 0.0, -q, 0.0);
  }

  /** x / l lies within the margin m / l of [0, 1] iff x lies within m of [0, l]. */
  lemma ScaledWithinMargin(x: real, l: real, m: real)
    requires 0.0 < l
    ensures WithinMargin(x / l, m / l) <==> -m <= x <= l + m
  {
    DivSum(x, m, l);
    DivSum(l, m, l);
    DivSum(l + m, -x, l);
    assert l / l == 1.0 && (-x) / l == -(x / l);
    DivSign(x + m, l);
    DivSign(l + m - x, l);
  }

  lemma UnitParam(x: real, l: real)
    requires 0.0 <= x <= l && 0.0 < l
    ensures 0.0 <= x / l <= 1.0
  {
    DivSign(x, l);
    DivSign(l - x, l);
    DivSum(l, -x, l);
    assert l / l == 1.0 && (-x) / l == -(x / l);
  }

  lemma DivSum(y: real, z: real, l: real)
    requires l != 0.0
    ensures y / l + z / l == (y + z) / l
  {
    assert (y / l + z / l) * l == y + z;
  }

  lemma DivSign(y: real, l: real)
    requires 0.0 < l
    ensures 0.0 <= y / l <==> 0.0 <= y
  {
    assert (y / l) * l == y;
  }

  /** The point at parameter x / l of a member that runs l along u. */
  lemma PointAtScaledParam(m: MemberAxis, l: real, u: Vec3, x: real)
    requires 0.0 < l && m.end == Along(m.start, l, u)
    ensures PointAtParam(m, x / l) == Along(m.start, x, u)
  {
    assert Subtract(m.end, m.start) == Vec3(l * u.x, l * u.y, l * u.z);
    assert (x / l) * (l * u.x) == x * u.x;
    assert (x / l) * (l * u.y) == x * u.y;
    assert (x / l) * (l * u.z) == x * u.z;
  }

  /** What find_intersection computes for two perpendicular members whose
      centre-lines meet x along the first and s along the second. */
  lemma PerpendicularAnalyze(a: MemberAxis, b: MemberAxis, la: real, lb: real, x: real, s: real,
                             u: Vec3, v: Vec3, tol: real, sqrt: real -> real)
    requires IsSqrt(sqrt)
    requires Dot(u, u) == 1.0 && Dot(v, v) == 1.0 && Dot(u, v) == 0.0
    requires 0.000001 < la && a.end == Along(a.start, la, u)
    requires 0.000001 < lb && b.end == Along(b.start, lb, v)
    requires Along(a.start, x, u) == Along(b.start, s, v)
    ensures Analyze(a, b, tol, sqrt)
         == Approach(x / la, s / lb, (a.width / 2.0 + tol) / la, (b.width / 2.0 + tol) / lb, 0.0, 0.0)
  {
    AxisAligned(a, la, u, sqrt);
    AxisAligned(b, lb, v, sqrt);
    SqrtAt(sqrt, 0.0, 0.0);
    PerpendicularAnalyzeWith(a, b, la, lb, x, s, u, v, tol, sqrt);
  }

  /** The same, once the lengths and directions are known and the square root
      of zero is zero. */
  lemma PerpendicularAnalyzeWith(a: MemberAxis, b: MemberAxis, la: real, lb: real, x: real, s: real,
                                 u: Vec3, v: Vec3, tol: real, sqrt: real -> real)
    requires Dot(u, u) == 1.0 && Dot(v, v) == 1.0 && Dot(u, v) == 0.0 && sqrt(0.0) == 0.0
    requires Length(a, sqrt) == la && LineDirection(a, sqrt) == u
    requires Length(b, sqrt) == lb && LineDirection(b, sqrt) == v
    requires Along(a.start, x, u) == Along(b.start, s, v)
    ensures Analyze(a, b, tol, sqrt)
         == Approach(SegmentParam(x, la), SegmentParam(s, lb), Margin(a.width, tol, la), Margin(b.width, tol, lb), 0.0, 0.0)
  {
    PerpendicularMeeting(a.start, x, u, b.start, s, v, sqrt);
    AnalyzeWith(a, b, tol, sqrt, la, lb, u, v, ClosestApproach(x, s, 0.0));
  }

  /** The decision on a zero-distance approach whose parameters lie on both
      segments: a joint of the classified type at the point on the first
      member, carried by the second member iff its parameter is at an end. */
  lemma DecideOnSegments(a: MemberAxis, b: MemberAxis, tol: real, pa: real, pb: real,
                         ma: real, mb: real, dotAbs: real)
    requires 0.0 <= pa <= 1.0 && 0.0 <= pb <= 1.0 && 0.0 <= ma && 0.0 <= mb
    requires 0.0 <= tol + (a.width + b.width) / 2.0
    ensures var r := Decide(a, b, tol, Approach(pa, pb, ma, mb, 0.0, dotAbs));
      r.Some? && r.value.jointType == Classify(dotAbs, pa, pb) &&
      r.value.intersectionPoint == PointAtParam(a, pa) &&
      (IsEndParam(pb) ==> r.value.memberA == a && r.value.memberB == b &&
                          r.value.paramA == pa && r.value.paramB == pb) &&
      (!IsEndParam(pb) ==> r.value.memberA == b && r.value.memberB == a &&
                           (a != b ==> r.value.paramA == pb && r.value.paramB == pa))
  {
  }

  /** Two perpendicular members whose centre-lines meet are joined iff the
      meeting point lies on each member extended by half its width plus the
      tolerance. */
  lemma PerpendicularJoined(a: MemberAxis, b: MemberAxis, la: real, lb: real, x: real, s: real,
                            u: Vec3, v: Vec3, tol: real, sqrt: real -> real)
    requires IsSqrt(sqrt)
    requires Dot(u, u) == 1.0 && Dot(v, v) == 1.0 && Dot(u, v) == 0.0
    requires 0.000001 < la && a.end == Along(a.start, la, u)
    requires 0.000001 < lb && b.end == Along(b.start, lb, v)
    requires Along(a.start, x, u) == Along(b.start, s, v)
    requires 0.0 <= tol + (a.width + b.width) / 2.0
    ensures FindIntersection(a, b, tol, sqrt).Some?
        <==> -(a.width / 2.0 + tol) <= x <= la + a.width / 2.0 + tol
             && -(b.width / 2.0 + tol) <= s <= lb + b.width / 2.0 + tol
  {
    PerpendicularAnalyze(a, b, la, lb, x, s, u, v, tol, sqrt);
    ScaledWithinMargin(x, la, a.width / 2.0 + tol);
    ScaledWithinMargin(s, lb, b.width / 2.0 + tol);
  }

  /** When the meeting point lies on both segments, the joint is classified by
      where it lies, sits at the meeting point, and the second member carries
      the tab iff the meeting point is at one of its ends. */
  lemma PerpendicularJoint(a: MemberAxis, b: MemberAxis, la: real, lb: real, x: real, s: real,
                           u: Vec3, v: Vec3, tol: real, sqrt: real -> real)
    requires IsSqrt(sqrt)
    requires Dot(u, u) == 1.0 && Dot(v, v) == 1.0 && Dot(u, v) == 0.0
    requires 0.000001 < la && a.end == Along(a.start, la, u)
    requires 0.000001 < lb && b.end == Along(b.start, lb, v)
    requires Along(a.start, x, u) == Along(b.start, s, v)
    requires 0.0 <= x <= la && 0.0 <= s <= lb
    requires 0.0 <= a.width / 2.0 + tol && 0.0 <= b.width / 2.0 + tol
    requires 0.0 <= tol + (a.width + b.width) / 2.0
    ensures var r := FindIntersection(a, b, tol, sqrt);
      r.Some? && r.value.jointType == Classify(0.0, x / la, s / lb) &&
      r.value.intersectionPoint == Along(a.start, x, u) &&
      (IsEndParam(s / lb) ==> r.value.memberA == a && r.value.memberB == b &&
                              r.value.paramA == x / la && r.value.paramB == s / lb) &&
      (!IsEndParam(s / lb) ==> r.value.memberA == b && r.value.memberB == a &&
                               (a != b ==> r.value.paramA == s / lb && r.value.paramB == x / la))
  {
    PerpendicularAnalyze(a, b, la, lb, x, s, u, v, tol, sqrt);
    UnitParam(x, la);
    UnitParam(s, lb);
    DivSign(a.width / 2.0 + tol, la);
    DivSign(b.width / 2.0 + tol, lb);
    DecideOnSegments(a, b, tol, x / la, s / lb, (a.width / 2.0 + tol) / la, (b.width / 2.0 + tol) / lb, 0.0);
    PointAtScaledParam(a, la, u, x);
  }

  /** A frame corner: a member along u ends where a perpendicular member along
      v starts. Both parameters are at an end, so the joint is a corner, and
      the second member carries the tab. */
  lemma FrameCorner(post: MemberAxis, rail: MemberAxis, h: real, l: real, u: Vec3, v: Vec3,
                    tol: real, sqrt: real -> real)
    requires IsSqrt(sqrt)
    requires Dot(u, u) == 1.0 && Dot(v, v) == 1.0 && Dot(u, v) == 0.0
    requires 0.000001 < h && post.end == Along(post.start, h, u)
    requires 0.000001 < l && rail.start == post.end && rail.end == Along(rail.start, l, v)
    requires 0.0 <= post.width / 2.0 + tol && 0.0 <= rail.width / 2.0 + tol
    requires 0.0 <= tol + (post.width + rail.width) / 2.0
    ensures FindIntersection(post, rail, tol, sqrt) == Some(Joint(Corner, post, rail, post.end, 1.0, 0.0, Top, Top))
  {
    assert h / h == 1.0 && 0.0 / l == 0.0;
    AlongZero(rail.start, v);
    PerpendicularJoint(post, rail, h, l, h, 0.0, u, v, tol, sqrt);
  }

  /** A member of length 1000 crossed at its middle by a perpendicular member
      of length 550 that starts 50 before it: neither parameter is at an end,
      so the joint is a cross and the first member carries the tab. */
  lemma MidSpanCross(a: MemberAxis, b: MemberAxis, u: Vec3, v: Vec3, sqrt: real -> real)
    requires IsSqrt(sqrt)
    requires Dot(u, u) == 1.0 && Dot(v, v) == 1.0 && Dot(u, v) == 0.0
    requires a.end == Along(a.start, 1000.0, u)
    requires b.end == Along(b.start, 550.0, v) && Along(a.start, 500.0, u) == Along(b.start, 50.0, v)
    requires 0.0 <= a.width && 0.0 <= b.width && a != b
    ensures var r := FindIntersection(a, b, 1.0, sqrt);
      r.Some? && r.value.jointType == Cross && r.value.memberA == b && r.value.memberB == a &&
      r.value.paramA == 1.0 / 11.0 && r.value.paramB == 0.5
  {
    PerpendicularJoint(a, b, 1000.0, 550.0, 500.0, 50.0, u, v, 1.0, sqrt);
    assert 500.0 / 1000.0 == 0.5 && 50.0 / 550.0 == 1.0 / 11.0;
  }

  lemma AlongBack(p: Vec3, q: real, u: Vec3)
    ensures Along(Along(p, q, u), -q, u) == p
  {
  }

  /** What find_intersection computes for a member b that continues a member a
      along the same unit vector u, starting q along a. */
  lemma InlineAnalyze(a: MemberAxis, b: MemberAxis, la: real, lb: real, q: real, u: Vec3,
                      tol: real, sqrt: real -> real)
    requires IsSqrt(sqrt)
    requires Dot(u, u) == 1.0
    requires 0.000001 < la && a.end == Along(a.start, la, u)
    requires 0.000001 < lb && b.start == Along(a.start, q, u) && b.end == Along(b.start, lb, u)
    ensures Analyze(a, b, tol, sqrt)
         == Approach(0.0, -q / lb, (a.width / 2.0 + tol) / la, (b.width / 2.0 + tol) / lb, 0.0, 1.0)
  {
    AxisAligned(a, la, u, sqrt);
    AxisAligned(b, lb, u, sqrt);
    SqrtAt(sqrt, 0.0, 0.0);
    InlineMeeting(a.start, u, q, b.start, sqrt);
    AnalyzeWith(a, b, tol, sqrt, la, lb, u, u, ClosestApproach(0.0, -q, 0.0));
    assert 0.0 / la == 0.0;
  }

  /** For parallel members the argument order matters: a member b continuing a
      along the same line from q along it is not found from a, because b's
      parameter is measured back to a's start, but a is found from b. */
  lemma InlineOrderMatters(a: MemberAxis, b: MemberAxis, la: real, lb: real, q: real, u: Vec3,
                           tol: real, sqrt: real -> real)
    requires IsSqrt(sqrt)
    requires Dot(u, u) == 1.0
    requires 0.000001 < la && a.end == Along(a.start, la, u)
    requires 0.000001 < lb && b.start == Along(a.start, q, u) && b.end == Along(b.start, lb, u)
    requires 0.0 <= a.width / 2.0 + tol && 0.0 <= tol + (a.width + b.width) / 2.0
    requires 0.0 <= b.width / 2.0 + tol < q <= la + a.width / 2.0 + tol
    ensures FindIntersection(a, b, tol, sqrt) == None
    ensures FindIntersection(b, a, tol, sqrt).Some?
    ensures FindIntersection(b, a, tol, sqrt).value.jointType == Inline
  {
    InlineAnalyze(a, b, la, lb, q, u, tol, sqrt);
    ScaledWithinMargin(-q, lb, b.width / 2.0 + tol);
    AlongBack(a.start, q, u);
    InlineAnalyze(b, a, lb, la, -q, u, tol, sqrt);
    ScaledWithinMargin(q, la, a.width / 2.0 + tol);
    DivSign(b.width / 2.0 + tol, lb);
    assert WithinMargin(0.0, (b.width / 2.0 + tol) / lb);
  }

  // ---------------------------------------------------------------------------
  // detect_all_joints

  function JointFinder(tol: real, sqrt: real -> real): (MemberAxis, MemberAxis) -> Option<Joint>
  {
    (x: MemberAxis, y: MemberAxis) => FindIntersection(x, y, tol, sqrt)
  }

  /** The joints of the pair scan are exactly those found for some pair i < j,
      and there is at most one per pair. */
  lemma ScanJoints(members: seq<MemberAxis>, tol: real, sqrt: real -> real)
    ensures var joints := PairScan.Scan(members, JointFinder(tol, sqrt));
      2 * |joints| <= |members| * (|members| - 1) &&
      forall j :: j in joints <==>
        exists p, q :: 0 <= p < q < |members| && FindIntersection(members[p], members[q], tol, sqrt) == Some(j)
  {
    var f := JointFinder(tol, sqrt);
    PairScan.ScanLength(members, f);
    forall jt
      ensures jt in PairScan.Scan(members, f) <==>
        exists p, q :: 0 <= p < q < |members| && FindIntersection(members[p], members[q], tol, sqrt) == Some(jt)
    {
      PairScan.ScanMembers(members, f, jt);
    }
  }

  /** Tests every pair i < j in (i, j) order and keeps the joints found. */
  method DetectAllJoints(members: seq<MemberAxis>, tol: real, sqrt: real -> real) returns (joints: seq<Joint>)
    ensures joints == PairScan.Scan(members, JointFinder(tol, sqrt))
    ensures 2 * |joints| <= |members| * (|members| - 1)
    ensures forall j :: j in joints <==>
      exists p, q :: 0 <= p < q < |members| && FindIntersection(members[p], members[q], tol, sqrt) == Some(j)
  {
    joints := PairScan.ScanPairs(members, JointFinder(tol, sqrt));
    ScanJoints(members, tol, sqrt);
  }

  // ---------------------------------------------------------------------------
  // members_from_frame_members

  /** The unit axis a frame member's rotation selects: a rotation of about
      +90 degrees around X gives +Y, otherwise one of about +90 degrees around Y
      gives +X, and anything else leaves the member along +Z. */
  function FrameAxis(rotation: Vec3): Vec3
  {
    if Abs(rotation.x - 90.0) < 1.0 then Vec3(0.0, 1.0, 0.0)
    else if Abs(rotation.y - 90.0) < 1.0 then Vec3(1.0, 0.0, 0.0)
    else Vec3(0.0, 0.0, 1.0)
  }

  lemma FrameAxisUnit(rotation: Vec3)
    ensures Dot(FrameAxis(rotation), FrameAxis(rotation)) == 1.0
  {
  }

  /** The end point: the start moved by the member length along one axis. */
  function FrameEnd(fm: BoxGenerator.FrameMember): (e: Vec3)
    ensures e == Along(fm.position, fm.lengthMm, FrameAxis(fm.rotation))
  {
    var p := fm.position;
    if Abs(fm.rotation.x - 90.0) < 1.0 then Vec3(p.x, p.y + fm.lengthMm, p.z)
    else if Abs(fm.rotation.y - 90.0) < 1.0 then Vec3(p.x + fm.lengthMm, p.y, p.z)
    else Vec3(p.x, p.y, p.z + fm.lengthMm)
  }

  /** The tube size every converted axis gets: a 2" square tube. */
  const FrameTubeSizeMm := 50.8

  function AxisOf(fm: BoxGenerator.FrameMember): MemberAxis
  {
    MemberAxis(BoxGenerator.GetName(fm), fm.position, FrameEnd(fm), FrameTubeSizeMm, FrameTubeSizeMm)
  }

  function AxesOf(fms: seq<BoxGenerator.FrameMember>): seq<MemberAxis>
  {
    seq(|fms|, i requires 0 <= i < |fms| => AxisOf(fms[i]))
  }

  /** The axis of a frame member longer than 1e-6 starts at its position, has
      the member's length and runs along the axis its rotation selects. */
  lemma AxisOfLength(fm: BoxGenerator.FrameMember, sqrt: real -> real)
    requires IsSqrt(sqrt) && 0.000001 < fm.lengthMm
    ensures AxisOf(fm).start == fm.position
    ensures Length(AxisOf(fm), sqrt) == fm.lengthMm
    ensures LineDirection(AxisOf(fm), sqrt) == FrameAxis(fm.rotation)
  {
    FrameAxisUnit(fm.rotation);
    AxisAligned(AxisOf(fm), fm.lengthMm, FrameAxis(fm.rotation), sqrt);
  }

  /** Depth rails and cross members are laid out with rotation (-90, 0, 0) to
      lie along +Y, but this conversion only recognises +90 around X, so their
      axes point along +Z as if they were vertical. */
  lemma DepthRailReadAsVertical(d: BoxGenerator.Dims, tw: real, i: nat)
    requires i < 4
    ensures FrameAxis(BoxGenerator.DepthRails(d, tw)[i].rotation) == Vec3(0.0, 0.0, 1.0)
    ensures FrameAxis(BoxGenerator.AlongY) != Vec3(0.0, 1.0, 0.0)
  {
  }

  /** One axis per frame member, in order, each named by the member's name. */
  method MembersFromFrameMembers(frameMembers: seq<BoxGenerator.FrameMember>) returns (axes: seq<MemberAxis>)
    ensures axes == AxesOf(frameMembers)
    ensures |axes| == |frameMembers|
    ensures forall i :: 0 <= i < |axes| ==>
      axes[i].memberId == BoxGenerator.GetName(frameMembers[i]) && axes[i].start == frameMembers[i].position &&
      axes[i].width == FrameTubeSizeMm && axes[i].height == FrameTubeSizeMm
  {
    axes := [];
    for k := 0 to |frameMembers|
      invariant axes == AxesOf(frameMembers)[..k]
    {
      var fm := frameMembers[k];
      var p := fm.position;
      var length := fm.lengthMm;
      var rx, ry := fm.rotation.x, fm.rotation.y;
      var end;
      if Abs(rx - 90.0) < 1.0 {
        end := Vec3(p.x, p.y + length, p.z);
      } else if Abs(ry - 90.0) < 1.0 {
        end := Vec3(p.x + length, p.y, p.z);
      } else {
        end := Vec3(p.x, p.y, p.z + length);
      }
      axes := axes + [MemberAxis(BoxGenerator.GetName(fm), p, end, FrameTubeSizeMm, FrameTubeSizeMm)];
    }
  }
}
