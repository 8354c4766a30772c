/** Hole patterns: holes distributed along a line by count or by spacing, a
    single hole, or a grid spread along a second direction. A pattern object
    keeps its parameters and recomputes its list of positions on request. */
module HolePatterns {
  import opened Wrappers
  import opened Numeric
  import opened HoleTypes

  datatype PatternDistribution = ByCount | BySpacing | Single | Grid

  /** One hole: its centre, the hole it is, and the direction it faces. */
  datatype HolePosition = HolePosition(x: real, y: real, z: real, holeSpec: Option<HoleSpec>, normal: Vec3)

  /** The parameters of a pattern, every field of the source's pattern except
      the computed positions. */
  datatype PatternParams = PatternParams(
    name: string,
    distribution: PatternDistribution,
    holeSpec: Option<HoleSpec>,
    start: Vec3,
    end: Vec3,
    count: int,
    spacingMm: real,
    gridCount2: int,
    gridSpacing2: real,
    gridDirection2: Vec3,
    marginStart: real,
    marginEnd: real,
    normal: Vec3)

  const DefaultParams := PatternParams("HolePattern", ByCount, None, Vec3(0.0, 0.0, 0.0), Vec3(100.0, 0.0, 0.0),
                                       3, 50.0, 1, 50.0, Vec3(0.0, 1.0, 0.0), 25.0, 25.0, Vec3(0.0, 0.0, 1.0))

  /** p + d·offset. */
  function PointAt(p: Vec3, d: Vec3, offset: real): Vec3
  {
    Vec3(p.x + d.x * offset, p.y + d.y * offset, p.z + d.z * offset)
  }

  function HoleAt(p: Vec3, spec: Option<HoleSpec>, normal: Vec3): HolePosition
  {
    HolePosition(p.x, p.y, p.z, spec, normal)
  }

  function NatOf(n: int): nat
  {
    if n < 0 then 0 else n
  }

  // ---------------------------------------------------------------------------
  // The line from start to end

  function Delta(p: PatternParams): Vec3
  {
    Vec3(p.end.x - p.start.x, p.end.y - p.start.y, p.end.z - p.start.z)
  }

  function LineLength(p: PatternParams, sqrt: real -> real): real
  {
    var d := Delta(p);
    sqrt(d.x * d.x + d.y * d.y + d.z * d.z)
  }

  /** The line's direction, the difference scaled down by the length. */
  function Heading(p: PatternParams, length: real): Vec3
    requires length != 0.0
  {
    var d := Delta(p);
    Vec3(d.x / length, d.y / length, d.z / length)
  }

  /** Stepping the line's full length along the heading reaches the end point. */
  lemma HeadingReachesEnd(p: PatternParams, sqrt: real -> real)
    requires LineLength(p, sqrt) >= 0.001
    ensures PointAt(p.start, Heading(p, LineLength(p, sqrt)), LineLength(p, sqrt)) == p.end
  {
    var len := LineLength(p, sqrt);
    var d := Delta(p);
    var h := Heading(p, len);
    var pt := PointAt(p.start, h, len);
    DivTimes(d.x, len);
    DivTimes(d.y, len);
    DivTimes(d.z, len);
    assert pt.x == p.end.x && pt.y == p.end.y && pt.z == p.end.z;
  }

  lemma DivTimes(a: real, l: real)
    requires l != 0.0
    ensures a / l * l == a
  {
  }

  /** The length left between the two margins. */
  function Usable(p: PatternParams, sqrt: real -> real): real
  {
    LineLength(p, sqrt) - p.marginStart - p.marginEnd
  }

  /** A row of n holes along a heading, at offsets first, first + step, ... */
  datatype LinePlan = LinePlan(heading: Vec3, length: real, first: real, step: real, n: nat)

  function Offset(plan: LinePlan, i: int): real
  {
    plan.first + i as real * plan.step
  }

  function LineHoles(start: Vec3, plan: LinePlan, spec: Option<HoleSpec>, normal: Vec3): (r: seq<HolePosition>)
    ensures |r| == plan.n
  {
    seq(plan.n, i requires 0 <= i < plan.n => HoleAt(PointAt(start, plan.heading, Offset(plan, i)), spec, normal))
  }

  // ---------------------------------------------------------------------------
  // By count

  /** The row a by-count pattern places, or None when it places nothing: a
      count below one, a line shorter than 0.001 mm, or no room between the
      margins. One hole sits in the middle of the usable length; more holes
      run from the start margin to the end margin. */
  function CountPlan(p: PatternParams, sqrt: real -> real): (r: Option<LinePlan>)
    ensures r.None? <==> p.count < 1 || LineLength(p, sqrt) < 0.001 || Usable(p, sqrt) <= 0.0
    ensures r.Some? ==> r.value.n == p.count && r.value.length == LineLength(p, sqrt)
  {
    if p.count < 1 then None
    else
      var length := LineLength(p, sqrt);
      if length < 0.001 then None
      else
        var usable := length - p.marginStart - p.marginEnd;
        if usable <= 0.0 then None
        else if p.count == 1 then Some(LinePlan(Heading(p, length), length, p.marginStart + usable / 2.0, 0.0, 1))
        else Some(LinePlan(Heading(p, length), length, p.marginStart, usable / (p.count - 1) as real, p.count))
  }

  function ByCountPositions(p: PatternParams, sqrt: real -> real): seq<HolePosition>
  {
    match CountPlan(p, sqrt)
    case None => []
    case Some(plan) => LineHoles(p.start, plan, p.holeSpec, p.normal)
  }

  /** A single counted hole is as far from the end margin as from the start
      margin. */
  lemma CountSingleCentred(p: PatternParams, sqrt: real -> real)
    requires CountPlan(p, sqrt).Some? && p.count == 1
    ensures var plan := CountPlan(p, sqrt).value;
      Offset(plan, 0) - p.marginStart == (plan.length - p.marginEnd) - Offset(plan, 0)
  {
  }

  /** Two or more counted holes start at the start margin, end at the end
      margin, and are evenly spaced with a positive step. */
  lemma CountSpansMargins(p: PatternParams, sqrt: real -> real)
    requires CountPlan(p, sqrt).Some? && p.count >= 2
    ensures var plan := CountPlan(p, sqrt).value;
      Offset(plan, 0) == p.marginStart && Offset(plan, p.count - 1) == plan.length - p.marginEnd && plan.step > 0.0
  {
    var plan := CountPlan(p, sqrt).value;
    var k := (p.count - 1) as real;
    assert plan.step == Usable(p, sqrt) / k;
    assert k * (Usable(p, sqrt) / k) == Usable(p, sqrt);
  }

  lemma MulMono(i: real, j: real, s: real)
    requires i <= j && 0.0 <= s
    ensures i * s <= j * s
  {
  }

  /** Every counted hole lies between the two margins, in increasing order. */
  lemma CountHolesWithinMargins(p: PatternParams, sqrt: real -> real, i: int)
    requires CountPlan(p, sqrt).Some? && 0 <= i < p.count
    ensures var plan := CountPlan(p, sqrt).value;
      p.marginStart <= Offset(plan, i) <= plan.length - p.marginEnd &&
      (i + 1 < p.count ==> Offset(plan, i) < Offset(plan, i + 1))
  {
    var plan := CountPlan(p, sqrt).value;
    if p.count == 1 {
      CountSingleCentred(p, sqrt);
    } else {
      CountSpansMargins(p, sqrt);
      MulMono(i as real, (p.count - 1) as real, plan.step);
    }
  }

  // ---------------------------------------------------------------------------
  // By spacing

  /** The row a by-spacing pattern places, or None when it places nothing: a
      spacing that is not positive, a line shorter than 0.001 mm, or no room
      between the margins. As many holes fit as whole spacings, plus one. */
  function SpacingPlan(p: PatternParams, sqrt: real -> real): (r: Option<LinePlan>)
    ensures r.None? <==> p.spacingMm <= 0.0 || LineLength(p, sqrt) < 0.001 || Usable(p, sqrt) <= 0.0
    ensures r.Some? ==> r.value.n == Trunc(Usable(p, sqrt) / p.spacingMm) + 1 && r.value.step == p.spacingMm
    ensures r.Some? ==> r.value.length == LineLength(p, sqrt)
  {
    if p.spacingMm <= 0.0 then None
    else
      var length := LineLength(p, sqrt);
      if length < 0.001 then None
      else
        var usable := length - p.marginStart - p.marginEnd;
        if usable <= 0.0 then None
        else
          var count := Trunc(usable / p.spacingMm) + 1;
          var actualLength := (count - 1) as real * p.spacingMm;
          Some(LinePlan(Heading(p, length), length, p.marginStart + (usable - actualLength) / 2.0, p.spacingMm, count))
  }

  function BySpacingPositions(p: PatternParams, sqrt: real -> real): seq<HolePosition>
  {
    match SpacingPlan(p, sqrt)
    case None => []
    case Some(plan) => LineHoles(p.start, plan, p.holeSpec, p.normal)
  }

  /** A spaced row is centred: the gap before the first hole equals the gap
      after the last, and it is less than half a spacing. */
  lemma SpacingCentred(p: PatternParams, sqrt: real -> real)
    requires SpacingPlan(p, sqrt).Some?
    ensures var plan := SpacingPlan(p, sqrt).value;
      var gap := Offset(plan, 0) - p.marginStart;
      gap == (plan.length - p.marginEnd) - Offset(plan, plan.n - 1) &&
      0.0 <= gap < p.spacingMm / 2.0
  {
    var plan := SpacingPlan(p, sqrt).value;
    var u := Usable(p, sqrt);
    var s := p.spacingMm;
    var t := Trunc(u / s);
    assert plan.n == t + 1 && plan.step == s && plan.length == LineLength(p, sqrt);
    assert plan.first == p.marginStart + (u - t as real * s) / 2.0;
    CentredArithmetic(u, s, t, p.marginStart, plan.length, p.marginEnd);
  }

  /** The arithmetic behind a centred row: t whole spacings fit into the
      usable length u, and the remainder is split evenly at both ends. */
  lemma CentredArithmetic(u: real, s: real, t: int, ms: real, length: real, me: real)
    requires 0.0 < u && 0.0 < s && u == length - ms - me
    requires t as real <= u / s < t as real + 1.0
    ensures var first := ms + (u - t as real * s) / 2.0;
      first - ms == (length - me) - (first + t as real * s) &&
      0.0 <= first - ms < s / 2.0
  {
    FloorTimes(u, s, t);
  }

  /** Multiplying `t <= u / s < t + 1` through by a positive s. */
  lemma FloorTimes(u: real, s: real, t: int)
    requires 0.0 < s && t as real <= u / s < t as real + 1.0
    ensures t as real * s <= u < t as real * s + s
  {
    var r := t as real;
    DivLower(u, s, r);
    DivUpper(u, s, r + 1.0);
  }

  lemma DivLower(u: real, s: real, r: real)
    requires 0.0 < s && r <= u / s
    ensures r * s <= u
  {
    var q := u / s;
    assert q * s == u;
    MulMono(r, q, s);
  }

  lemma DivUpper(u: real, s: real, b: real)
    requires 0.0 < s && u / s < b
    ensures u < b * s
  {
    var q := u / s;
    assert q * s == u;
    MulStrict(q, b, s);
  }

  lemma MulStrict(a: real, b: real, s: real)
    requires a < b && 0.0 < s
    ensures a * s < b * s
  {
  }

  // ---------------------------------------------------------------------------
  // Grid

  /** The grid's primary row, or None on a line shorter than 0.001 mm: like
      a counted row, but the step collapses to zero when there is no room
      between the margins, and a short row is not dropped for that. */
  function GridPlan(p: PatternParams, sqrt: real -> real): (r: Option<LinePlan>)
    ensures r.None? <==> LineLength(p, sqrt) < 0.001
    ensures r.Some? ==> r.value.n == NatOf(p.count) && r.value.length == LineLength(p, sqrt)
  {
    var length := LineLength(p, sqrt);
    if length < 0.001 then None
    else
      var usable := length - p.marginStart - p.marginEnd;
      var step := if p.count == 1 then 0.0 else if usable > 0.0 then usable / (p.count - 1) as real else 0.0;
      var first := if p.count == 1 then p.marginStart + usable / 2.0 else p.marginStart;
      Some(LinePlan(Heading(p, length), length, first, step, NatOf(p.count)))
  }

  /** Wherever a counted row is placed, the grid's primary row is that same
      row. */
  lemma GridAgreesWithCount(p: PatternParams, sqrt: real -> real)
    requires CountPlan(p, sqrt).Some?
    ensures GridPlan(p, sqrt) == CountPlan(p, sqrt)
  {
  }

  /** Where the grid's primary holes lie when the counted row would place
      nothing for want of room: a single hole midway between the margins, and
      two or more holes all stacked at the start margin. */
  lemma GridWithoutRoom(p: PatternParams, sqrt: real -> real, i: int)
    requires LineLength(p, sqrt) >= 0.001 && Usable(p, sqrt) <= 0.0 && 0 <= i < p.count
    ensures var plan := GridPlan(p, sqrt).value;
      && (p.count == 1 ==> Offset(plan, i) - p.marginStart == (plan.length - p.marginEnd) - Offset(plan, i))
      && (p.count >= 2 ==> Offset(plan, i) == p.marginStart)
  {
  }

  function PlanPoints(start: Vec3, plan: LinePlan): (r: seq<Vec3>)
    ensures |r| == plan.n
  {
    seq(plan.n, i requires 0 <= i < plan.n => PointAt(start, plan.heading, Offset(plan, i)))
  }

  function GridPrimary(p: PatternParams, sqrt: real -> real): (r: seq<Vec3>)
  {
    match GridPlan(p, sqrt)
    case None => []
    case Some(plan) => PlanPoints(p.start, plan)
  }

  /** Offsets along the second direction, centred on the primary point. */
  function SecondaryOffsets(p: PatternParams): (r: seq<real>)
    ensures |r| == NatOf(p.gridCount2)
  {
    var first := -((p.gridCount2 - 1) as real * p.gridSpacing2) / 2.0;
    seq(NatOf(p.gridCount2), j requires 0 <= j < NatOf(p.gridCount2) => first + j as real * p.gridSpacing2)
  }

  /** The secondary offsets are symmetric about the primary point. */
  lemma SecondarySymmetric(p: PatternParams, j: int)
    requires 0 <= j < NatOf(p.gridCount2)
    ensures SecondaryOffsets(p)[j] == -SecondaryOffsets(p)[NatOf(p.gridCount2) - 1 - j]
  {
  }

  function Row(pt: Vec3, d2: Vec3, offsets: seq<real>, spec: Option<HoleSpec>, normal: Vec3): (r: seq<HolePosition>)
    ensures |r| == |offsets|
  {
    seq(|offsets|, j requires 0 <= j < |offsets| => HoleAt(PointAt(pt, d2, offsets[j]), spec, normal))
  }

  /** One row of secondary holes per primary point, rows in primary order. */
  function Rows(points: seq<Vec3>, d2: Vec3, offsets: seq<real>, spec: Option<HoleSpec>, normal: Vec3): seq<HolePosition>
  {
    if points == [] then []
    else Rows(points[..|points| - 1], d2, offsets, spec, normal) + Row(points[|points| - 1], d2, offsets, spec, normal)
  }

  function GridPositions(p: PatternParams, sqrt: real -> real): seq<HolePosition>
  {
    Rows(GridPrimary(p, sqrt), p.gridDirection2, SecondaryOffsets(p), p.holeSpec, p.normal)
  }

  lemma MulStep(i: nat, n: nat, m: nat, j: nat)
    requires i < n && j < m
    ensures i * m + j < n * m
  {
    assert i * m + j < i * m + m == (i + 1) * m;
    assert (i + 1) * m <= n * m;
  }

  /** The grid holds |points| rows of |offsets| holes. */
  lemma {:induction false} RowsLength(points: seq<Vec3>, d2: Vec3, offsets: seq<real>, spec: Option<HoleSpec>, normal: Vec3)
    ensures |Rows(points, d2, offsets, spec, normal)| == |points| * |offsets|
  {
    if points != [] {
      var n := |points|;
      RowsLength(points[..n - 1], d2, offsets, spec, normal);
      assert (n - 1) * |offsets| + |offsets| == n * |offsets|;
    }
  }

  /** Hole i·m + j of the grid is the j-th secondary offset from the i-th
      primary point, where m is the number of secondary offsets. */
  lemma {:induction false} RowsAt(points: seq<Vec3>, d2: Vec3, offsets: seq<real>, spec: Option<HoleSpec>, normal: Vec3,
                                  i: nat, j: nat)
    requires i < |points| && j < |offsets|
    ensures i * |offsets| + j < |Rows(points, d2, offsets, spec, normal)|
    ensures Rows(points, d2, offsets, spec, normal)[i * |offsets| + j] == HoleAt(PointAt(points[i], d2, offsets[j]), spec, normal)
  {
    var m := |offsets|;
    var n := |points|;
    var init := points[..n - 1];
    RowsLength(points, d2, offsets, spec, normal);
    RowsLength(init, d2, offsets, spec, normal);
    MulStep(i, n, m, j);
    var r := Rows(points, d2, offsets, spec, normal);
    assert r == Rows(init, d2, offsets, spec, normal) + Row(points[n - 1], d2, offsets, spec, normal);
    if i < n - 1 {
      MulStep(i, n - 1, m, j);
      RowsAt(init, d2, offsets, spec, normal, i, j);
      assert init[i] == points[i];
    } else {
      assert i * m + j == (n - 1) * m + j;
    }
  }

  /** Every grid hole carries the given hole and normal. */
  lemma {:induction false} RowsCarry(points: seq<Vec3>, d2: Vec3, offsets: seq<real>, spec: Option<HoleSpec>, normal: Vec3)
    ensures forall h :: h in Rows(points, d2, offsets, spec, normal) ==> h.holeSpec == spec && h.normal == normal
  {
    if points != [] {
      RowsCarry(points[..|points| - 1], d2, offsets, spec, normal);
    }
  }

  /** A grid on a line of at least 0.001 mm has count × second-count holes
      (a negative count counts as none); a shorter line has none. */
  lemma GridSize(p: PatternParams, sqrt: real -> real)
    ensures LineLength(p, sqrt) >= 0.001 ==> |GridPositions(p, sqrt)| == NatOf(p.count) * NatOf(p.gridCount2)
    ensures LineLength(p, sqrt) < 0.001 ==> GridPositions(p, sqrt) == []
  {
    RowsLength(GridPrimary(p, sqrt), p.gridDirection2, SecondaryOffsets(p), p.holeSpec, p.normal);
  }

  // ---------------------------------------------------------------------------
  // All distributions

  /** The positions a pattern computes from its parameters alone. */
  function ComputedPositions(p: PatternParams, sqrt: real -> real): seq<HolePosition>
  {
    match p.distribution
    case Single => [HoleAt(p.start, p.holeSpec, p.normal)]
    case ByCount => ByCountPositions(p, sqrt)
    case BySpacing => BySpacingPositions(p, sqrt)
    case Grid => GridPositions(p, sqrt)
  }

  /** Every computed hole carries the pattern's hole and normal. */
  lemma PositionsCarrySpec(p: PatternParams, sqrt: real -> real)
    ensures forall h :: h in ComputedPositions(p, sqrt) ==> h.holeSpec == p.holeSpec && h.normal == p.normal
  {
    if p.distribution == Grid {
      RowsCarry(GridPrimary(p, sqrt), p.gridDirection2, SecondaryOffsets(p), p.holeSpec, p.normal);
    }
  }

  /** A single-hole pattern has exactly one hole, at the start point. */
  lemma SingleAtStart(p: PatternParams, sqrt: real -> real)
    requires p.distribution == Single
    ensures |ComputedPositions(p, sqrt)| == 1
    ensures var h := ComputedPositions(p, sqrt)[0]; h.x == p.start.x && h.y == p.start.y && h.z == p.start.z
  {
  }

  /** The grid's primary points, one per step along the line. */
  method PrimaryPoints(s: Vec3, line: LinePlan) returns (primary: seq<Vec3>)
    ensures primary == PlanPoints(s, line)
  {
    var heading := line.heading;
    ghost var points := PlanPoints(s, line);
    primary := [];
    var i := 0;
    while i < line.n
      invariant 0 <= i <= line.n
      invariant primary == points[..i]
    {
      var offset := line.first + i as real * line.step;
      assert points[i] == PointAt(s, heading, Offset(line, i));
      assert points[i] == Vec3(s.x + heading.x * offset, s.y + heading.y * offset, s.z + heading.z * offset);
      primary := primary + [Vec3(s.x + heading.x * offset, s.y + heading.y * offset, s.z + heading.z * offset)];
      i := i + 1;
    }
  }

  class HolePattern {
    var name: string
    var distribution: PatternDistribution
    var holeSpec: Option<HoleSpec>
    var start: Vec3
    var end: Vec3
    var count: int
    var spacingMm: real
    var gridCount2: int
    var gridSpacing2: real
    var gridDirection2: Vec3
    var marginStart: real
    var marginEnd: real
    var normal: Vec3
    var positions: seq<HolePosition>

    function Params(): PatternParams
      reads this
    {
      PatternParams(name, distribution, holeSpec, start, end, count, spacingMm, gridCount2, gridSpacing2,
                    gridDirection2, marginStart, marginEnd, normal)
    }

    constructor(p: PatternParams)
      ensures Params() == p && positions == []
    {
      name := p.name;
      distribution := p.distribution;
      holeSpec := p.holeSpec;
      start := p.start;
      end := p.end;
      count := p.count;
      spacingMm := p.spacingMm;
      gridCount2 := p.gridCount2;
      gridSpacing2 := p.gridSpacing2;
      gridDirection2 := p.gridDirection2;
      marginStart := p.marginStart;
      marginEnd := p.marginEnd;
      normal := p.normal;
      positions := [];
    }

    /** Discards any earlier positions and computes them afresh. */
    method ComputePositions(sqrt: real -> real) returns (r: seq<HolePosition>)
      modifies this
      ensures Params() == old(Params())
      ensures positions == ComputedPositions(Params(), sqrt) && r == positions
    {
      positions := [];
      if distribution == Single {
        positions := positions + [HolePosition(start.x, start.y, start.z, holeSpec, normal)];
      } else if distribution == ByCount {
        ComputeByCount(sqrt);
      } else if distribution == BySpacing {
        ComputeBySpacing(sqrt);
      } else if distribution == Grid {
        ComputeGrid(sqrt);
      }
      r := positions;
    }

    /** Appends a row of holes, one per offset of the plan. */
    method AppendRow(plan: LinePlan)
      modifies this
      ensures Params() == old(Params())
      ensures positions == old(positions) + LineHoles(start, plan, holeSpec, normal)
    {
      var s, spec, nm := start, holeSpec, normal;
      var heading := plan.heading;
      ghost var row := LineHoles(s, plan, spec, nm);
      var i := 0;
      while i < plan.n
        invariant 0 <= i <= plan.n
        invariant Params() == old(Params())
        invariant positions == old(positions) + row[..i]
      {
        var offset := plan.first + i as real * plan.step;
        assert row[i] == HolePosition(s.x + heading.x * offset, s.y + heading.y * offset,
                                      s.z + heading.z * offset, spec, nm);
        positions := positions + [HolePosition(s.x + heading.x * offset, s.y + heading.y * offset,
                                               s.z + heading.z * offset, spec, nm)];
        assert row[..i + 1] == row[..i] + [row[i]];
        i := i + 1;
      }
      assert row[..plan.n] == row;
    }

    /** The guards and spacing of a by-count row, then its holes. */
    method ComputeByCount(sqrt: real -> real)
      modifies this
      ensures Params() == old(Params())
      ensures positions == old(positions) + ByCountPositions(Params(), sqrt)
    {
      var plan := CountPlan(Params(), sqrt);
      if plan.None? {
        return;
      }
      AppendRow(plan.value);
    }

    /** The guards and centring of a by-spacing row, then its holes. */
    method ComputeBySpacing(sqrt: real -> real)
      modifies this
      ensures Params() == old(Params())
      ensures positions == old(positions) + BySpacingPositions(Params(), sqrt)
    {
      var plan := SpacingPlan(Params(), sqrt);
      if plan.None? {
        return;
      }
      AppendRow(plan.value);
    }

    /** The primary points first, then for each of them, in order, one hole
        per secondary offset. */
    method ComputeGrid(sqrt: real -> real)
      modifies this
      ensures Params() == old(Params())
      ensures positions == old(positions) + GridPositions(Params(), sqrt)
    {
      var plan := GridPlan(Params(), sqrt);
      if plan.None? {
        return;
      }
      var primary := PrimaryPoints(start, plan.value);
      AppendRows(primary);
    }

    /** For each primary point, in order, its row of secondary holes. */
    method AppendRows(primary: seq<Vec3>)
      modifies this
      ensures Params() == old(Params())
      ensures positions == old(positions) + Rows(primary, gridDirection2, SecondaryOffsets(Params()), holeSpec, normal)
    {
      ghost var offsets := SecondaryOffsets(Params());
      var k := 0;
      while k < |primary|
        invariant 0 <= k <= |primary|
        invariant Params() == old(Params())
        invariant positions == old(positions) + Rows(primary[..k], gridDirection2, offsets, holeSpec, normal)
      {
        AppendSecondary(primary[k]);
        assert primary[..k + 1][..k] == primary[..k];
        k := k + 1;
      }
      assert primary[..k] == primary;
    }

    /** Appends the holes around one primary point, one per secondary offset. */
    method AppendSecondary(pt: Vec3)
      modifies this
      ensures Params() == old(Params())
      ensures positions == old(positions) + Row(pt, gridDirection2, SecondaryOffsets(Params()), holeSpec, normal)
    {
      var d2, spec, nm := gridDirection2, holeSpec, normal;
      var n2, spacing2 := gridCount2, gridSpacing2;
      var offsetStart := -((n2 - 1) as real * spacing2) / 2.0;
      ghost var row := Row(pt, d2, SecondaryOffsets(Params()), spec, nm);
      var j := 0;
      while j < n2
        invariant 0 <= j <= NatOf(n2)
        invariant Params() == old(Params())
        invariant positions == old(positions) + row[..j]
      {
        var offset2 := offsetStart + j as real * spacing2;
        assert row[j] == HolePosition(pt.x + d2.x * offset2, pt.y + d2.y * offset2, pt.z + d2.z * offset2, spec, nm);
        positions := positions + [HolePosition(pt.x + d2.x * offset2, pt.y + d2.y * offset2, pt.z + d2.z * offset2,
                                               spec, nm)];
        assert row[..j + 1] == row[..j] + [row[j]];
        j := j + 1;
      }
      assert row[..j] == row;
    }
  }

  // ---------------------------------------------------------------------------
  // The pattern generator (it holds no state, so its operations are methods
  // of this module)

  datatype PatternError = CountAndSpacingBoth | CountAndSpacingNeither

  /** The parameters of a linear pattern: by count when a count is given (the
      spacing then 0), by spacing otherwise (the count then 0). */
  function LinearParams(holeSpec: HoleSpec, start: Vec3, end: Vec3, count: Option<int>, spacingMm: real,
                        marginStart: real, marginEnd: real, normal: Vec3): (p: PatternParams)
    ensures p.name == "LinearPattern" && p.holeSpec == Some(holeSpec) && p.start == start && p.end == end
    ensures count.Some? ==> p.distribution == ByCount && p.count == count.value && p.spacingMm == 0.0
    ensures count.None? ==> p.distribution == BySpacing && p.count == 0 && p.spacingMm == spacingMm
  {
    var distribution := if count.Some? then ByCount else BySpacing;
    PatternParams("LinearPattern", distribution, Some(holeSpec), start, end,
                  if count.Some? then count.value else 0, if count.Some? then 0.0 else spacingMm,
                  DefaultParams.gridCount2, DefaultParams.gridSpacing2, DefaultParams.gridDirection2,
                  marginStart, marginEnd, normal)
  }

  /** A linear pattern from exactly one of a count and a spacing; giving both
      or neither is an error. */
  method CreateLinearPattern(holeSpec: HoleSpec, start: Vec3, end: Vec3, count: Option<int>, spacingMm: Option<real>,
                             marginStart: real, marginEnd: real, normal: Vec3, sqrt: real -> real)
    returns (r: Result<HolePattern, PatternError>)
    ensures r == Err(CountAndSpacingBoth) <==> count.Some? && spacingMm.Some?
    ensures r == Err(CountAndSpacingNeither) <==> count.None? && spacingMm.None?
    ensures r.Ok? ==> fresh(r.value)
    ensures r.Ok? ==> r.value.Params() == LinearParams(holeSpec, start, end, count,
                                                       if spacingMm.Some? then spacingMm.value else 0.0,
                                                       marginStart, marginEnd, normal)
    ensures r.Ok? ==> r.value.positions == ComputedPositions(r.value.Params(), sqrt)
  {
    if count.Some? && spacingMm.Some? {
      return Err(CountAndSpacingBoth);
    }
    if count.None? && spacingMm.None? {
      return Err(CountAndSpacingNeither);
    }
    var spacing := if spacingMm.Some? then spacingMm.value else 0.0;
    var pattern := new HolePattern(LinearParams(holeSpec, start, end, count, spacing, marginStart, marginEnd, normal));
    var _ := pattern.ComputePositions(sqrt);
    r := Ok(pattern);
  }

  /** A grid pattern: count_primary holes along the line, each the centre of
      count_secondary holes along the second direction. */
  method CreateGridPattern(holeSpec: HoleSpec, start: Vec3, end: Vec3, countPrimary: int, countSecondary: int,
                           spacingSecondary: real, directionSecondary: Vec3, marginStart: real, marginEnd: real,
                           normal: Vec3, sqrt: real -> real)
    returns (pattern: HolePattern)
    ensures fresh(pattern)
    ensures pattern.Params() == PatternParams("GridPattern", Grid, Some(holeSpec), start, end, countPrimary,
                                              DefaultParams.spacingMm, countSecondary, spacingSecondary,
                                              directionSecondary, marginStart, marginEnd, normal)
    ensures pattern.positions == GridPositions(pattern.Params(), sqrt)
  {
    pattern := new HolePattern(PatternParams("GridPattern", Grid, Some(holeSpec), start, end, countPrimary,
                                             DefaultParams.spacingMm, countSecondary, spacingSecondary,
                                             directionSecondary, marginStart, marginEnd, normal));
    var _ := pattern.ComputePositions(sqrt);
  }
}
