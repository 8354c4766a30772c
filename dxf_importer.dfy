/** Reading a tube cross-section from DXF drawing entities: the bounding box of
    each entity, the split into outer and inner boundary, the width, height and
    mean corner radius of each boundary, the unit scale and wall thickness, and
    the unit guess from the drawing header. The drawing is given as a list of
    entities; reading the file is not part of this model. */
module DxfImport {
  import opened Wrappers
  import opened Numeric
  import opened TubeProfiles

  datatype Point2 = Point2(x: real, y: real)

  /** The entity kinds the importer distinguishes; `LwPolyline` is collected
      but has no bounds of its own, and `OtherEntity` (ellipses, rays, text,
      dimensions, ...) is not collected at all. An other entity carries the x
      coordinates of whichever `start`, `end` and `center` attributes its
      kind has: an ellipse has a centre, a ray or construction line a start. */
  datatype Entity =
    | Line(start: Point2, end: Point2)
    | Arc(center: Point2, radius: real)
    | Circle(center: Point2, radius: real)
    | LwPolyline
    | OtherEntity(dxfType: string, startX: Option<real>, endX: Option<real>, centerX: Option<real>)

  datatype Bounds = Bounds(minX: real, minY: real, maxX: real, maxY: real)

  predicate Contains(b: Bounds, p: Point2)
  {
    b.minX <= p.x <= b.maxX && b.minY <= p.y <= b.maxY
  }

  /** A line's box is the tightest box around its two endpoints; an arc's or
      circle's is its centre ± radius; anything else gets the zero box. */
  function EntityBounds(e: Entity): (b: Bounds)
    ensures e.Line? ==> (Contains(b, e.start) && Contains(b, e.end) &&
      (b.minX == e.start.x || b.minX == e.end.x) && (b.maxX == e.start.x || b.maxX == e.end.x) &&
      (b.minY == e.start.y || b.minY == e.end.y) && (b.maxY == e.start.y || b.maxY == e.end.y))
    ensures (e.Arc? || e.Circle?) ==>
      (b.maxX - b.minX == 2.0 * e.radius && b.maxY - b.minY == 2.0 * e.radius &&
       (b.minX + b.maxX) / 2.0 == e.center.x && (b.minY + b.maxY) / 2.0 == e.center.y)
    ensures !(e.Line? || e.Arc? || e.Circle?) ==> b == Bounds(0.0, 0.0, 0.0, 0.0)
  {
    match e
    case Line(s, t) => Bounds(Min(s.x, t.x), Min(s.y, t.y), Max(s.x, t.x), Max(s.y, t.y))
    case Arc(c, r) => Bounds(c.x - r, c.y - r, c.x + r, c.y + r)
    case Circle(c, r) => Bounds(c.x - r, c.y - r, c.x + r, c.y + r)
    case _ => Bounds(0.0, 0.0, 0.0, 0.0)
  }

  // ---------------------------------------------------------------------------
  // Minimum, maximum and sum of a list of numbers

  function SeqMin(s: seq<real>): (m: real)
    requires |s| > 0
    ensures m in s && forall x :: x in s ==> m <= x
  {
    if |s| == 1 then s[0]
    else
      assert s == s[..|s| - 1] + [s[|s| - 1]];
      Min(SeqMin(s[..|s| - 1]), s[|s| - 1])
  }

  function SeqMax(s: seq<real>): (m: real)
    requires |s| > 0
    ensures m in s && forall x :: x in s ==> x <= m
  {
    if |s| == 1 then s[0]
    else
      assert s == s[..|s| - 1] + [s[|s| - 1]];
      Max(SeqMax(s[..|s| - 1]), s[|s| - 1])
  }

  function Sum(s: seq<real>): real
  {
    if s == [] then 0.0 else Sum(s[..|s| - 1]) + s[|s| - 1]
  }

  lemma ScaleLe(k: real, a: real, b: real)
    requires 0.0 <= k && a <= b
    ensures k * a <= k * b
  {
  }

  /** A sum of n values between lo and hi lies between n·lo and n·hi. */
  lemma {:induction false} SumWithin(s: seq<real>, lo: real, hi: real)
    requires forall i :: 0 <= i < |s| ==> lo <= s[i] <= hi
    ensures |s| as real * lo <= Sum(s) <= |s| as real * hi
  {
    if s != [] {
      var init := s[..|s| - 1];
      SumWithin(init, lo, hi);
      assert Sum(s) == Sum(init) + s[|s| - 1];
      assert |init| as real * lo + lo == |s| as real * lo;
      assert |init| as real * hi + hi == |s| as real * hi;
    }
  }

  lemma DivBounds(total: real, n: real, lo: real, hi: real)
    requires 0.0 < n && n * lo <= total <= n * hi
    ensures lo <= total / n <= hi
  {
  }

  /** The mean of a non-empty list of values between lo and hi lies between
      them too. */
  lemma MeanWithin(s: seq<real>, lo: real, hi: real)
    requires |s| > 0
    requires forall i :: 0 <= i < |s| ==> lo <= s[i] <= hi
    ensures lo <= Sum(s) / |s| as real <= hi
  {
    SumWithin(s, lo, hi);
    DivBounds(Sum(s), |s| as real, lo, hi);
  }

  // ---------------------------------------------------------------------------
  // Outer and inner boundary

  /** The radii of the arcs, in order. */
  function ArcRadii(es: seq<Entity>): (r: seq<real>)
    ensures |r| <= |es|
  {
    if es == [] then []
    else ArcRadii(es[..|es| - 1]) + (if es[|es| - 1].Arc? then [es[|es| - 1].radius] else [])
  }

  /** The distance from the origin of the centre of a line's box. */
  function CentreDistance(e: Entity, sqrt: real -> real): real
  {
    var b := EntityBounds(e);
    var cx := (b.minX + b.maxX) / 2.0;
    var cy := (b.minY + b.maxY) / 2.0;
    sqrt(cx * cx + cy * cy)
  }

  /** The centre distances of the lines, in order. */
  function LineDistances(es: seq<Entity>, sqrt: real -> real): (r: seq<real>)
    ensures |r| <= |es|
  {
    if es == [] then []
    else LineDistances(es[..|es| - 1], sqrt) + (if es[|es| - 1].Line? then [CentreDistance(es[|es| - 1], sqrt)] else [])
  }

  lemma {:induction false} ArcRadiiMember(es: seq<Entity>, i: int)
    requires 0 <= i < |es| && es[i].Arc?
    ensures es[i].radius in ArcRadii(es)
  {
    if i < |es| - 1 {
      ArcRadiiMember(es[..|es| - 1], i);
    }
  }

  lemma {:induction false} LineDistancesMember(es: seq<Entity>, i: int, sqrt: real -> real)
    requires 0 <= i < |es| && es[i].Line?
    ensures CentreDistance(es[i], sqrt) in LineDistances(es, sqrt)
  {
    if i < |es| - 1 {
      LineDistancesMember(es[..|es| - 1], i, sqrt);
    }
  }

  /** The midpoint of the smallest and largest value. */
  function Midpoint(s: seq<real>): real
    requires |s| > 0
  {
    (SeqMin(s) + SeqMax(s)) / 2.0
  }

  /** Whether an entity of the drawing `all` belongs to the outer boundary: an
      arc whose radius reaches the midpoint of the arc radii, a line whose
      centre distance reaches the midpoint of the line distances, and every
      other entity. */
  function GoesOuter(e: Entity, all: seq<Entity>, sqrt: real -> real): bool
  {
    if e.Arc? then
      var radii := ArcRadii(all);
      if |radii| > 0 then e.radius >= Midpoint(radii) else true
    else if e.Line? then
      var distances := LineDistances(all, sqrt);
      if |distances| > 0 then CentreDistance(e, sqrt) >= Midpoint(distances) else true
    else true
  }

  /** The entities of `es` that go to the outer boundary, in order. */
  function OuterOf(es: seq<Entity>, all: seq<Entity>, sqrt: real -> real): seq<Entity>
  {
    if es == [] then []
    else OuterOf(es[..|es| - 1], all, sqrt) + (if GoesOuter(es[|es| - 1], all, sqrt) then [es[|es| - 1]] else [])
  }

  /** The entities of `es` that go to the inner boundary, in order. */
  function InnerOf(es: seq<Entity>, all: seq<Entity>, sqrt: real -> real): seq<Entity>
  {
    if es == [] then []
    else InnerOf(es[..|es| - 1], all, sqrt) + (if GoesOuter(es[|es| - 1], all, sqrt) then [] else [es[|es| - 1]])
  }

  /** Every entity lands on exactly one side: the two sides together are the
      input, counted with multiplicity. */
  lemma {:induction false} ClassifyPartitions(es: seq<Entity>, all: seq<Entity>, sqrt: real -> real)
    ensures multiset(OuterOf(es, all, sqrt)) + multiset(InnerOf(es, all, sqrt)) == multiset(es)
    ensures |OuterOf(es, all, sqrt)| + |InnerOf(es, all, sqrt)| == |es|
  {
    if es != [] {
      var init, last := es[..|es| - 1], es[|es| - 1];
      ClassifyPartitions(init, all, sqrt);
      assert es == init + [last];
      if GoesOuter(last, all, sqrt) {
        assert OuterOf(es, all, sqrt) == OuterOf(init, all, sqrt) + [last];
        assert InnerOf(es, all, sqrt) == InnerOf(init, all, sqrt);
      } else {
        assert OuterOf(es, all, sqrt) == OuterOf(init, all, sqrt);
        assert InnerOf(es, all, sqrt) == InnerOf(init, all, sqrt) + [last];
      }
    }
  }

  /** The split keeps the input order: splitting a concatenation gives the
      concatenation of the splits, on each side. */
  lemma {:induction false} ClassifyKeepsOrder(a: seq<Entity>, b: seq<Entity>, all: seq<Entity>, sqrt: real -> real)
    ensures OuterOf(a + b, all, sqrt) == OuterOf(a, all, sqrt) + OuterOf(b, all, sqrt)
    ensures InnerOf(a + b, all, sqrt) == InnerOf(a, all, sqrt) + InnerOf(b, all, sqrt)
  {
    if b == [] {
      assert a + b == a;
    } else {
      var b', last := b[..|b| - 1], b[|b| - 1];
      ClassifyKeepsOrder(a, b', all, sqrt);
      var ab := a + b;
      assert ab[..|ab| - 1] == a + b' && ab[|ab| - 1] == last;
      if GoesOuter(last, all, sqrt) {
        assert OuterOf(ab, all, sqrt) == OuterOf(a + b', all, sqrt) + [last];
        assert OuterOf(b, all, sqrt) == OuterOf(b', all, sqrt) + [last];
        assert InnerOf(ab, all, sqrt) == InnerOf(a + b', all, sqrt);
        assert InnerOf(b, all, sqrt) == InnerOf(b', all, sqrt);
      } else {
        assert OuterOf(ab, all, sqrt) == OuterOf(a + b', all, sqrt);
        assert OuterOf(b, all, sqrt) == OuterOf(b', all, sqrt);
        assert InnerOf(ab, all, sqrt) == InnerOf(a + b', all, sqrt) + [last];
        assert InnerOf(b, all, sqrt) == InnerOf(b', all, sqrt) + [last];
      }
    }
  }

  /** An entity is on the outer side iff it is in the input and goes outer. */
  lemma {:induction false} OuterMembers(es: seq<Entity>, all: seq<Entity>, sqrt: real -> real, e: Entity)
    ensures e in OuterOf(es, all, sqrt) <==> e in es && GoesOuter(e, all, sqrt)
    ensures e in InnerOf(es, all, sqrt) <==> e in es && !GoesOuter(e, all, sqrt)
  {
    if es != [] {
      var init := es[..|es| - 1];
      OuterMembers(init, all, sqrt, e);
      assert es == init + [es[|es| - 1]];
    }
  }

  /** An arc of the drawing goes outer iff its radius is at least the midpoint
      of the smallest and largest arc radius; so the largest arc always does. */
  lemma ArcClassification(all: seq<Entity>, i: int, sqrt: real -> real)
    requires 0 <= i < |all| && all[i].Arc?
    ensures |ArcRadii(all)| > 0
    ensures GoesOuter(all[i], all, sqrt) <==> all[i].radius >= Midpoint(ArcRadii(all))
    ensures all[i].radius == SeqMax(ArcRadii(all)) ==> GoesOuter(all[i], all, sqrt)
  {
    ArcRadiiMember(all, i);
  }

  /** A line of the drawing goes outer iff the distance of its box centre from
      the origin is at least the midpoint of the smallest and largest such
      distance. */
  lemma LineClassification(all: seq<Entity>, i: int, sqrt: real -> real)
    requires 0 <= i < |all| && all[i].Line?
    ensures |LineDistances(all, sqrt)| > 0
    ensures GoesOuter(all[i], all, sqrt) <==> CentreDistance(all[i], sqrt) >= Midpoint(LineDistances(all, sqrt))
  {
    LineDistancesMember(all, i, sqrt);
  }

  /** The distances of the lines' box centres, one per line, in order. */
  method CollectLineDistances(entities: seq<Entity>, sqrt: real -> real) returns (distances: seq<real>)
    ensures distances == LineDistances(entities, sqrt)
  {
    distances := [];
    var i := 0;
    while i < |entities|
      invariant 0 <= i <= |entities|
      invariant distances == LineDistances(entities[..i], sqrt)
    {
      var e := entities[i];
      if e.Line? {
        distances := distances + [CentreDistance(e, sqrt)];
      }
      assert entities[..i + 1][..i] == entities[..i];
      i := i + 1;
    }
    assert entities[..i] == entities;
  }

  /** Splits the drawing into outer and inner boundary entities. */
  method ClassifyEntitiesBySize(entities: seq<Entity>, sqrt: real -> real) returns (outer: seq<Entity>, inner: seq<Entity>)
    ensures outer == OuterOf(entities, entities, sqrt) && inner == InnerOf(entities, entities, sqrt)
    ensures entities == [] ==> outer == [] && inner == []
  {
    if entities == [] {
      return [], [];
    }
    outer, inner := [], [];
    var i := 0;
    while i < |entities|
      invariant 0 <= i <= |entities|
      invariant outer == OuterOf(entities[..i], entities, sqrt)
      invariant inner == InnerOf(entities[..i], entities, sqrt)
    {
      var e := entities[i];
      var toOuter := true;
      if e.Arc? {
        var arcRadii := ArcRadii(entities);
        if |arcRadii| > 0 {
          var threshold := (SeqMin(arcRadii) + SeqMax(arcRadii)) / 2.0;
          toOuter := e.radius >= threshold;
        }
      } else if e.Line? {
        var distances := CollectLineDistances(entities, sqrt);
        if |distances| > 0 {
          var threshold := (SeqMin(distances) + SeqMax(distances)) / 2.0;
          toOuter := CentreDistance(e, sqrt) >= threshold;
        }
      }
      assert toOuter == GoesOuter(e, entities, sqrt);
      if toOuter {
        outer := outer + [e];
      } else {
        inner := inner + [e];
      }
      assert entities[..i + 1][..i] == entities[..i];
      i := i + 1;
    }
    assert entities[..i] == entities;
  }

  // ---------------------------------------------------------------------------
  // Measuring a boundary

  datatype Measured = Measured(width: real, height: real, cornerRadius: real)

  function MinXs(es: seq<Entity>): (r: seq<real>)
    ensures |r| == |es| && forall i :: 0 <= i < |es| ==> r[i] == EntityBounds(es[i]).minX
  {
    seq(|es|, i requires 0 <= i < |es| => EntityBounds(es[i]).minX)
  }

  function MinYs(es: seq<Entity>): (r: seq<real>)
    ensures |r| == |es| && forall i :: 0 <= i < |es| ==> r[i] == EntityBounds(es[i]).minY
  {
    seq(|es|, i requires 0 <= i < |es| => EntityBounds(es[i]).minY)
  }

  function MaxXs(es: seq<Entity>): (r: seq<real>)
    ensures |r| == |es| && forall i :: 0 <= i < |es| ==> r[i] == EntityBounds(es[i]).maxX
  {
    seq(|es|, i requires 0 <= i < |es| => EntityBounds(es[i]).maxX)
  }

  function MaxYs(es: seq<Entity>): (r: seq<real>)
    ensures |r| == |es| && forall i :: 0 <= i < |es| ==> r[i] == EntityBounds(es[i]).maxY
  {
    seq(|es|, i requires 0 <= i < |es| => EntityBounds(es[i]).maxY)
  }

  /** The box around every entity's box, for a non-empty list. */
  function OverallBounds(es: seq<Entity>): (b: Bounds)
    requires |es| > 0
    ensures forall i :: 0 <= i < |es| ==>
      b.minX <= EntityBounds(es[i]).minX && EntityBounds(es[i]).maxX <= b.maxX &&
      b.minY <= EntityBounds(es[i]).minY && EntityBounds(es[i]).maxY <= b.maxY
    ensures exists i :: 0 <= i < |es| && b.minX == EntityBounds(es[i]).minX
    ensures exists i :: 0 <= i < |es| && b.minY == EntityBounds(es[i]).minY
    ensures exists i :: 0 <= i < |es| && b.maxX == EntityBounds(es[i]).maxX
    ensures exists i :: 0 <= i < |es| && b.maxY == EntityBounds(es[i]).maxY
  {
    var b := Bounds(SeqMin(MinXs(es)), SeqMin(MinYs(es)), SeqMax(MaxXs(es)), SeqMax(MaxYs(es)));
    assert forall i :: 0 <= i < |es| ==> (MinXs(es)[i] in MinXs(es) && MaxXs(es)[i] in MaxXs(es) &&
      MinYs(es)[i] in MinYs(es) && MaxYs(es)[i] in MaxYs(es));
    b
  }

  /** `m` times the number of values is their sum. */
  predicate IsMeanOf(m: real, s: seq<real>)
  {
    m * |s| as real == Sum(s)
  }

  /** The arithmetic mean of a non-empty list: it lies between the smallest
      and the largest value, and times the count it gives back the sum. */
  function Mean(s: seq<real>): (m: real)
    requires |s| > 0
    ensures SeqMin(s) <= m <= SeqMax(s)
    ensures IsMeanOf(m, s)
  {
    var total := Sum(s);
    var n := |s| as real;
    assert SeqMin(s) <= total / n <= SeqMax(s) by {
      assert forall i :: 0 <= i < |s| ==> s[i] in s;
      MeanWithin(s, SeqMin(s), SeqMax(s));
    }
    assert IsMeanOf(total / n, s) by {
      QuotientTimes(total, n);
    }
    total / n
  }

  /** The mean arc radius, zero without arcs. */
  function CornerRadius(es: seq<Entity>): (r: real)
    ensures ArcRadii(es) == [] ==> r == 0.0
    ensures ArcRadii(es) != [] ==> SeqMin(ArcRadii(es)) <= r <= SeqMax(ArcRadii(es))
    ensures ArcRadii(es) != [] ==> IsMeanOf(r, ArcRadii(es))
  {
    var radii := ArcRadii(es);
    if |radii| > 0 then Mean(radii) else 0.0
  }

  /** Width and height of the overall box and the mean arc radius (zero with
      no arcs); all zero for no entities. */
  function ExtractGeometryFromEntities(es: seq<Entity>): (m: Measured)
    ensures es == [] ==> m == Measured(0.0, 0.0, 0.0)
    ensures es != [] ==> m.width == OverallBounds(es).maxX - OverallBounds(es).minX &&
                         m.height == OverallBounds(es).maxY - OverallBounds(es).minY
    ensures ArcRadii(es) == [] ==> m.cornerRadius == 0.0
    ensures ArcRadii(es) != [] ==> SeqMin(ArcRadii(es)) <= m.cornerRadius <= SeqMax(ArcRadii(es))
    ensures ArcRadii(es) != [] ==> IsMeanOf(m.cornerRadius, ArcRadii(es))
  {
    if es == [] then Measured(0.0, 0.0, 0.0)
    else
      var b := OverallBounds(es);
      Measured(b.maxX - b.minX, b.maxY - b.minY, CornerRadius(es))
  }

  lemma QuotientTimes(a: real, n: real)
    requires n != 0.0
    ensures (a / n) * n == a
  {
  }

  /** When every arc has the same radius, that radius is the corner radius. */
  lemma EqualArcsRadius(es: seq<Entity>, r: real)
    requires ArcRadii(es) != []
    requires forall x :: x in ArcRadii(es) ==> x == r
    ensures ExtractGeometryFromEntities(es).cornerRadius == r
  {
    var radii := ArcRadii(es);
    ConstantSum(radii, r);
    var m := ExtractGeometryFromEntities(es);
    assert m.cornerRadius * |radii| as real == r * |radii| as real;
  }

  lemma {:induction false} ConstantSum(s: seq<real>, r: real)
    requires forall x :: x in s ==> x == r
    ensures Sum(s) == r * |s| as real
  {
    if s != [] {
      var init := s[..|s| - 1];
      assert forall x :: x in init ==> x == r by {
        forall x | x in init ensures x == r {
          var k :| 0 <= k < |init| && init[k] == x;
          assert s[k] in s;
        }
      }
      ConstantSum(init, r);
      assert s[|s| - 1] in s;
      assert r * |init| as real + r == r * |s| as real;
    }
  }

  /** With no negative radius among them, a non-empty boundary has a width and
      height at least as large as any of its entities' boxes. */
  lemma MeasuredCoversEntities(es: seq<Entity>, i: int)
    requires 0 <= i < |es|
    requires !(es[i].Arc? || es[i].Circle?) || es[i].radius >= 0.0
    ensures var m := ExtractGeometryFromEntities(es); var b := EntityBounds(es[i]);
      b.maxX - b.minX <= m.width && b.maxY - b.minY <= m.height && 0.0 <= m.width && 0.0 <= m.height
  {
  }

  // ---------------------------------------------------------------------------
  // From a drawing to a profile geometry

  /** Millimetres per drawing unit: 25.4 for inches, 1 for anything else. */
  function UnitScale(units: string): (s: real)
    ensures units == "inch" <==> s == 25.4
    ensures units != "inch" <==> s == 1.0
  {
    if units == "inch" then 25.4 else 1.0
  }

  /** The entities the importer collects: lines, arcs, circles and light
      polylines. */
  function Collected(es: seq<Entity>): (r: seq<Entity>)
    ensures forall e :: e in r <==> e in es && !e.OtherEntity?
  {
    if es == [] then []
    else Collected(es[..|es| - 1]) + (if es[|es| - 1].OtherEntity? then [] else [es[|es| - 1]])
  }

  datatype DxfError = NoGeometry(path: string)

  /** The geometry read from a drawing: the outer boundary's width, height and
      corner radius, the wall as half the difference of outer and inner width,
      and the inner boundary's corner radius, all scaled to mm. A drawing with
      nothing collected is an error. */
  function ExtractGeometryFromDxf(es: seq<Entity>, units: string, fileName: string, sqrt: real -> real)
    : (r: Result<ProfileGeometry, DxfError>)
    ensures r.Err? <==> Collected(es) == []
  {
    var drawn := Collected(es);
    if drawn == [] then Err(NoGeometry(fileName))
    else
      var outer := ExtractGeometryFromEntities(OuterOf(drawn, drawn, sqrt));
      var inner := ExtractGeometryFromEntities(InnerOf(drawn, drawn, sqrt));
      var scale := UnitScale(units);
      var outerWMm := outer.width * scale;
      var wall := (outerWMm - inner.width * scale) / 2.0;
      Ok(NewGeometry(outerWMm, outer.height * scale, wall, outer.cornerRadius * scale,
                     Some(inner.cornerRadius * scale), Some(fileName), "Y+"))
  }

  /** The measurements scaled to mm; the wall is half the difference of the
      outer and inner widths, so the geometry's own inner width is the
      measured inner width. */
  lemma DxfGeometryFields(es: seq<Entity>, units: string, fileName: string, sqrt: real -> real)
    requires Collected(es) != []
    ensures var g := ExtractGeometryFromDxf(es, units, fileName, sqrt).value;
      var drawn := Collected(es);
      var outer := ExtractGeometryFromEntities(OuterOf(drawn, drawn, sqrt));
      var inner := ExtractGeometryFromEntities(InnerOf(drawn, drawn, sqrt));
      var s := UnitScale(units);
      g.outerWidthMm == outer.width * s && g.outerHeightMm == outer.height * s &&
      g.wallThicknessMm == (outer.width - inner.width) * s / 2.0 &&
      g.cornerRadiusMm == outer.cornerRadius * s &&
      g.innerCornerRadiusMm == inner.cornerRadius * s &&
      g.InnerWidthMm() == inner.width * s &&
      g.dxfFile == Some(fileName)
  {
  }

  // ---------------------------------------------------------------------------
  // Unit detection

  function AbsOf(o: Option<real>): seq<real>
  {
    match o
    case Some(x) => [Abs(x)]
    case None => []
  }

  /** |x| of the entity's start, end and centre points, for those it has. */
  function PointXs(e: Entity): (r: seq<real>)
    ensures forall x :: x in r ==> 0.0 <= x
  {
    match e
    case Line(s, t) => [Abs(s.x), Abs(t.x)]
    case Arc(c, _) => [Abs(c.x)]
    case Circle(c, _) => [Abs(c.x)]
    case LwPolyline => []
    case OtherEntity(_, s, t, c) => AbsOf(s) + AbsOf(t) + AbsOf(c)
  }

  /** |x| of every start, end and centre point, entity by entity. */
  function XCoordinates(es: seq<Entity>): (r: seq<real>)
    ensures forall x :: x in r ==> 0.0 <= x
  {
    if es == [] then []
    else XCoordinates(es[..|es| - 1]) + PointXs(es[|es| - 1])
  }

  /** The scanned coordinates are exactly those of the entities. */
  lemma {:induction false} XCoordinatesMember(es: seq<Entity>, x: real)
    ensures x in XCoordinates(es) <==> exists i :: 0 <= i < |es| && x in PointXs(es[i])
  {
    if es != [] {
      var init := es[..|es| - 1];
      XCoordinatesMember(init, x);
      if x in XCoordinates(es) && x !in XCoordinates(init) {
        assert x in PointXs(es[|es| - 1]);
      }
      if exists i :: 0 <= i < |es| && x in PointXs(es[i]) {
        var i :| 0 <= i < |es| && x in PointXs(es[i]);
        if i < |es| - 1 {
          assert init[i] == es[i];
        }
      }
    }
  }

  /** The drawing's units from its `$INSUNITS` header value (0 when the header
      has none): 1, 4, 5 and 6 name inches, mm, cm and m; otherwise a drawing
      whose largest |x| is under 20 is taken to be in inches and any other in
      mm, and one without coordinates is "unknown". */
  function DetectDxfUnits(insunits: int, es: seq<Entity>): (u: string)
    ensures insunits == 1 ==> u == "inch"
    ensures insunits == 4 ==> u == "mm"
    ensures insunits == 5 ==> u == "cm"
    ensures insunits == 6 ==> u == "m"
    ensures insunits !in {1, 4, 5, 6} ==>
      (XCoordinates(es) == [] ==> u == "unknown") &&
      (XCoordinates(es) != [] ==> (u == "inch" <==> SeqMax(XCoordinates(es)) < 20.0) &&
                                  (u == "mm" <==> SeqMax(XCoordinates(es)) >= 20.0))
  {
    if insunits == 1 then "inch"
    else if insunits == 4 then "mm"
    else if insunits == 5 then "cm"
    else if insunits == 6 then "m"
    else
      var xs := XCoordinates(es);
      if xs != [] then (if SeqMax(xs) < 20.0 then "inch" else "mm")
      else "unknown"
  }

  /** No coordinate is scanned exactly when no entity has a point. */
  lemma {:induction false} XCoordinatesEmpty(es: seq<Entity>)
    ensures XCoordinates(es) == [] <==> forall i :: 0 <= i < |es| ==> PointXs(es[i]) == []
  {
    if es != [] {
      var init, last := es[..|es| - 1], es[|es| - 1];
      XCoordinatesEmpty(init);
      assert XCoordinates(es) == XCoordinates(init) + PointXs(last);
      if XCoordinates(es) == [] {
        forall i | 0 <= i < |es| ensures PointXs(es[i]) == [] {
          if i < |es| - 1 { assert es[i] == init[i]; }
        }
      } else if XCoordinates(init) != [] {
        var i :| 0 <= i < |init| && PointXs(init[i]) != [];
        assert es[i] == init[i];
      } else {
        assert PointXs(es[|es| - 1]) != [];
      }
    }
  }

  /** Every coordinate of every entity is at most the largest one scanned. */
  lemma PointXsBelowMax(es: seq<Entity>, i: int, x: real)
    requires 0 <= i < |es| && x in PointXs(es[i])
    ensures XCoordinates(es) != [] && x <= SeqMax(XCoordinates(es))
  {
    XCoordinatesMember(es, x);
  }

  /** Without a known `$INSUNITS` value the guess is inches exactly when every
      start, end and centre of every entity lies within |x| < 20, millimetres
      exactly when some entity reaches |x| >= 20, and unknown when no entity
      has such a point. */
  lemma UnitGuess(insunits: int, es: seq<Entity>)
    requires insunits !in {1, 4, 5, 6}
    ensures DetectDxfUnits(insunits, es) == "unknown" <==> forall i :: 0 <= i < |es| ==> PointXs(es[i]) == []
    ensures DetectDxfUnits(insunits, es) == "mm" <==>
      exists i, x :: 0 <= i < |es| && x in PointXs(es[i]) && 20.0 <= x
    ensures DetectDxfUnits(insunits, es) == "inch" <==>
      (exists i :: 0 <= i < |es| && PointXs(es[i]) != []) &&
      forall i, x :: 0 <= i < |es| && x in PointXs(es[i]) ==> x < 20.0
  {
    var xs := XCoordinates(es);
    XCoordinatesEmpty(es);
    if xs != [] {
      var m := SeqMax(xs);
      XCoordinatesMember(es, m);
      var k :| 0 <= k < |es| && m in PointXs(es[k]);
      forall i, x | 0 <= i < |es| && x in PointXs(es[i]) ensures x <= m {
        PointXsBelowMax(es, i, x);
      }
    }
  }
}
