/** Tab and slot records for a joint: the tab member (`memberB`) carries a tab
    from its nearer end toward the slot member (`memberA`), which gets a slot on
    the flat face the tab approaches. Widths come from the profile tolerances;
    directions and face normals are signed axis vectors. */
module TabSlot {
  import opened Wrappers
  import opened Numeric
  import opened TubeProfiles
  import opened JointDetector

  datatype CornerReliefType = NoRelief | Dogbone | Radius | TBone

  /** All lengths in mm; `position` is the centre of the tab base, `direction`
      the unit vector the tab extends along and `normal` the normal of its face. */
  datatype TabGeometry = TabGeometry(
    width: real,
    depth: real,
    thickness: real,
    position: Vec3,
    direction: Vec3,
    normal: Vec3,
    cornerRadius: real)

  /** `position` is the centre of the slot opening, `direction` points into the
      tube and `along` runs along the slot's length. */
  datatype SlotGeometry = SlotGeometry(
    width: real,
    depth: real,
    length: real,
    position: Vec3,
    direction: Vec3,
    along: Vec3,
    reliefType: CornerReliefType,
    reliefRadius: real)

  datatype Axis = X | Y | Z

  /** The unit vector along an axis, positive or negative. */
  function SignedAxis(a: Axis, positive: bool): Vec3
  {
    var s := if positive then 1.0 else -1.0;
    match a
    case X => Vec3(s, 0.0, 0.0)
    case Y => Vec3(0.0, s, 0.0)
    case Z => Vec3(0.0, 0.0, s)
  }

  lemma SignedAxisUnit(a: Axis, positive: bool)
    ensures Dot(SignedAxis(a, positive), SignedAxis(a, positive)) == 1.0
  {
  }

  lemma SignedAxesOrthogonal(a: Axis, p: bool, b: Axis, q: bool)
    requires a != b
    ensures Dot(SignedAxis(a, p), SignedAxis(b, q)) == 0.0
  {
  }

  /** The generator's settings. The cached dimensions of the source are the
      member functions below, read from the profile. */
  datatype TabSlotGenerator = TabSlotGenerator(
    profile: TubeProfile,
    tabDepthMm: real,
    reliefType: CornerReliefType)
  {
    function WallThickness(): real { profile.geometry.wallThicknessMm }
    function TubeWidth(): real { profile.geometry.outerWidthMm }
    function TubeHeight(): real { profile.geometry.outerHeightMm }
    function TabWidth(): real { CalcTabWidth(profile, None) }
    function SlotWidth(): real { CalcSlotWidth(profile, None) }
    function ReliefRadius(): real { profile.tolerances.cornerReliefRadiusMm }
  }

  /** The defaults: 10 mm tabs with radius relief. */
  function NewGenerator(profile: TubeProfile): (g: TabSlotGenerator)
    ensures g.profile == profile && g.tabDepthMm == 10.0 && g.reliefType == Radius
  {
    TabSlotGenerator(profile, 10.0, Radius)
  }

  // ---------------------------------------------------------------------------
  // calc_tab_geometry

  /** The tab starts at the tab member's end when the joint lies past its
      middle, otherwise at its start. */
  function TabBase(j: Joint): Vec3
  {
    if j.paramB > 0.5 then j.memberB.end else j.memberB.start
  }

  /** Where the tab points: the slot member's centre-line point at the joint. */
  function SlotCentre(j: Joint): Vec3
  {
    PointAtParam(j.memberA, j.paramA)
  }

  /** The unit vector from the tab base to the slot centre, or the slot
      member's direction when the two are within 1e-6. */
  function ExtendDirection(j: Joint, sqrt: real -> real): Vec3
  {
    var base := TabBase(j);
    var centre := SlotCentre(j);
    var dist := Distance(centre, base, sqrt);
    if dist > 0.000001 then
      Vec3((centre.x - base.x) / dist, (centre.y - base.y) / dist, (centre.z - base.z) / dist)
    else Direction(j.memberA, sqrt)
  }

  /** The axis of the tab face normal: for a vertical tab member (|dz| > 0.9)
      the horizontal axis across the main horizontal component of the extension,
      otherwise Z. */
  function TabNormalAxis(tabDir: Vec3, extend: Vec3): Axis
  {
    if Abs(tabDir.z) > 0.9 then
      if Abs(extend.x) > Abs(extend.y) then Y else X
    else Z
  }

  function CalcTabGeometry(g: TabSlotGenerator, j: Joint, face: TabPosition, sqrt: real -> real): (t: TabGeometry)
    ensures t.width == CalcTabWidth(g.profile, None)
    ensures t.thickness == g.profile.geometry.wallThicknessMm && t.depth == g.tabDepthMm
    ensures t.cornerRadius == if g.reliefType == Radius then g.profile.tolerances.cornerReliefRadiusMm else 0.0
    ensures t.normal == SignedAxis(TabNormalAxis(Direction(j.memberB, sqrt), t.direction), face == TabPosition.Top)
  {
    var base := TabBase(j);
    var extend := ExtendDirection(j, sqrt);
    var normal := SignedAxis(TabNormalAxis(Direction(j.memberB, sqrt), extend), face == TabPosition.Top);
    var offset := g.TubeHeight() / 2.0 - g.WallThickness() / 2.0;
    TabGeometry(g.TabWidth(), g.tabDepthMm, g.WallThickness(), Along(base, offset, normal),
      extend, normal, if g.reliefType == Radius then g.ReliefRadius() else 0.0)
  }

  /** The tab extends along a unit vector; when the slot centre is more than
      1e-6 from the tab base, that vector leads from the base to the centre,
      and otherwise it is the slot member's direction. */
  lemma TabDirection(g: TabSlotGenerator, j: Joint, face: TabPosition, sqrt: real -> real)
    requires IsSqrt(sqrt)
    ensures var t := CalcTabGeometry(g, j, face, sqrt);
      Dot(t.direction, t.direction) == 1.0
    ensures var t := CalcTabGeometry(g, j, face, sqrt);
      var dist := Distance(SlotCentre(j), TabBase(j), sqrt);
      dist > 0.000001 ==> Along(TabBase(j), dist, t.direction) == SlotCentre(j)
    ensures var t := CalcTabGeometry(g, j, face, sqrt);
      Distance(SlotCentre(j), TabBase(j), sqrt) <= 0.000001 ==> t.direction == Direction(j.memberA, sqrt)
  {
    var base := TabBase(j);
    var centre := SlotCentre(j);
    var raw := Subtract(centre, base);
    var dist := Distance(centre, base, sqrt);
    if dist > 0.000001 {
      assert ExtendDirection(j, sqrt) == Vec3(raw.x / dist, raw.y / dist, raw.z / dist);
      DistanceIsNorm(centre, base, sqrt);
      NormSquared(raw, sqrt);
      ScaledIsUnit(raw, dist);
    } else {
      assert ExtendDirection(j, sqrt) == Direction(j.memberA, sqrt);
      DirectionAlwaysUnit(j.memberA, sqrt);
    }
  }

  /** The tab sits on a flat face: its normal is a signed unit axis, positive
      exactly for the top face, and it lies half a tube height less half a wall
      from the base along that normal. When the tab member runs along an axis,
      the normal is square to it. */
  lemma TabOnFlatFace(g: TabSlotGenerator, j: Joint, face: TabPosition, sqrt: real -> real, a: Axis)
    ensures var t := CalcTabGeometry(g, j, face, sqrt);
      Dot(t.normal, t.normal) == 1.0 &&
      (t.normal.x + t.normal.y + t.normal.z == 1.0 <==> face == TabPosition.Top) &&
      t.position == Along(TabBase(j), g.TubeHeight() / 2.0 - g.WallThickness() / 2.0, t.normal)
    ensures Direction(j.memberB, sqrt) == SignedAxis(a, true) ==>
      Dot(CalcTabGeometry(g, j, face, sqrt).normal, Direction(j.memberB, sqrt)) == 0.0
  {
    var t := CalcTabGeometry(g, j, face, sqrt);
    var na := TabNormalAxis(Direction(j.memberB, sqrt), t.direction);
    SignedAxisUnit(na, face == TabPosition.Top);
    if Direction(j.memberB, sqrt) == SignedAxis(a, true) {
      assert na != a;
      SignedAxesOrthogonal(na, face == TabPosition.Top, a, true);
    }
  }

  // ---------------------------------------------------------------------------
  // calc_slot_geometry

  /** Which way a slot goes into its member and which way it runs. */
  datatype SlotFrame = SlotFrame(into: Axis, positive: bool, along: Axis)

  /** A vertical member (|dz| > 0.9) is cut on a Y face chosen by the sign of
      the approach's y, running along X; a member along X (|dx| > 0.9) on a Z
      face chosen by the approach's z, running along Y; any other member on a Z
      face, running along X. */
  function SlotFrameFor(memberDir: Vec3, approach: Vec3): (f: SlotFrame)
    ensures f.into != f.along
    ensures f.positive <==> Component(approach, f.into) > 0.0
  {
    if Abs(memberDir.z) > 0.9 then SlotFrame(Y, approach.y > 0.0, X)
    else if Abs(memberDir.x) > 0.9 then SlotFrame(Z, approach.z > 0.0, Y)
    else SlotFrame(Z, approach.z > 0.0, X)
  }

  function Component(v: Vec3, a: Axis): real
  {
    match a
    case X => v.x
    case Y => v.y
    case Z => v.z
  }

  lemma DotSignedAxis(a: Axis, positive: bool, v: Vec3)
    ensures Dot(SignedAxis(a, positive), v) == if positive then Component(v, a) else -Component(v, a)
  {
  }

  /** The face argument is not used: the slot face follows the approach. */
  function CalcSlotGeometry(g: TabSlotGenerator, j: Joint, face: TabPosition, sqrt: real -> real): (s: SlotGeometry)
    ensures s.width == CalcSlotWidth(g.profile, None)
    ensures s.depth == 2.0 * g.profile.geometry.wallThicknessMm
    ensures s.length == g.tabDepthMm + 2.0 * g.profile.tolerances.cornerReliefRadiusMm
    ensures s.reliefType == g.reliefType && s.reliefRadius == g.profile.tolerances.cornerReliefRadiusMm
  {
    var position := SlotCentre(j);
    var f := SlotFrameFor(Direction(j.memberA, sqrt), Subtract(position, TabBase(j)));
    var into := SignedAxis(f.into, f.positive);
    SlotGeometry(g.SlotWidth(), g.WallThickness() * 2.0, g.tabDepthMm + g.ReliefRadius() * 2.0,
      Along(position, g.TubeHeight() / 2.0, into), into, SignedAxis(f.along, true),
      g.reliefType, g.ReliefRadius())
  }

  /** The opening lies on the tube face: half a tube height from the joint
      point along the slot direction. */
  lemma SlotOpening(g: TabSlotGenerator, j: Joint, face: TabPosition, sqrt: real -> real)
    ensures var s := CalcSlotGeometry(g, j, face, sqrt);
      s.position == Along(SlotCentre(j), g.TubeHeight() / 2.0, s.direction)
  {
  }

  /** The slot's direction and length axis are orthogonal signed unit axes. */
  lemma SlotAxesOrthogonal(g: TabSlotGenerator, j: Joint, face: TabPosition, sqrt: real -> real)
    ensures var s := CalcSlotGeometry(g, j, face, sqrt);
      Dot(s.direction, s.direction) == 1.0 && Dot(s.along, s.along) == 1.0 &&
      Dot(s.direction, s.along) == 0.0
  {
    var approach := Subtract(SlotCentre(j), TabBase(j));
    var f := SlotFrameFor(Direction(j.memberA, sqrt), approach);
    SignedAxisUnit(f.into, f.positive);
    SignedAxisUnit(f.along, true);
    SignedAxesOrthogonal(f.into, f.positive, f.along, true);
  }

  /** The slot is cut on the face toward the tab: its direction never points
      away from the approach (joint point minus tab base), and points along it
      exactly when the approach has a component on the slot's axis. */
  lemma SlotFacesTab(g: TabSlotGenerator, j: Joint, face: TabPosition, sqrt: real -> real)
    ensures var s := CalcSlotGeometry(g, j, face, sqrt);
      var approach := Subtract(SlotCentre(j), TabBase(j));
      0.0 <= Dot(s.direction, approach) &&
      (Dot(s.direction, approach) == 0.0 <==>
         Component(approach, SlotFrameFor(Direction(j.memberA, sqrt), approach).into) == 0.0)
  {
    var approach := Subtract(SlotCentre(j), TabBase(j));
    var f := SlotFrameFor(Direction(j.memberA, sqrt), approach);
    DotSignedAxis(f.into, f.positive, approach);
  }

  /** For a slot member running along an axis, both the slot's direction and
      its length axis are square to the member: the slot is cut across a face. */
  lemma SlotAcrossMember(g: TabSlotGenerator, j: Joint, face: TabPosition, sqrt: real -> real, a: Axis)
    requires Direction(j.memberA, sqrt) == SignedAxis(a, true)
    ensures var s := CalcSlotGeometry(g, j, face, sqrt);
      Dot(s.direction, SignedAxis(a, true)) == 0.0 && Dot(s.along, SignedAxis(a, true)) == 0.0
  {
    var f := SlotFrameFor(Direction(j.memberA, sqrt), Subtract(SlotCentre(j), TabBase(j)));
    assert f.into != a && f.along != a;
    SignedAxesOrthogonal(f.into, f.positive, a, true);
    SignedAxesOrthogonal(f.along, true, a, true);
  }

  /** The slot does not depend on the face argument. */
  lemma SlotIgnoresFace(g: TabSlotGenerator, j: Joint, f1: TabPosition, f2: TabPosition, sqrt: real -> real)
    ensures CalcSlotGeometry(g, j, f1, sqrt) == CalcSlotGeometry(g, j, f2, sqrt)
  {
  }

  /** A tab fits its slot: the slot is wider by the profile's total clearance
      (at least the wall on the slot side and at most the wall on the tab side
      when the tolerances are non-negative) and longer than the tab is deep by
      twice the relief radius. */
  lemma TabFitsSlot(g: TabSlotGenerator, j: Joint, sqrt: real -> real)
    ensures var t := CalcTabGeometry(g, j, j.tabFace, sqrt);
      var s := CalcSlotGeometry(g, j, j.slotFace, sqrt);
      s.width - t.width == TotalClearance(g.profile.tolerances) &&
      s.length - t.depth == 2.0 * s.reliefRadius &&
      (NonNegativeTolerances(g.profile.tolerances) ==> t.width <= t.thickness <= s.width)
  {
  }

  // ---------------------------------------------------------------------------
  // generate_joint_features

  /** No features for an inline joint; a tab and a slot for every other one,
      on the faces the joint names. */
  function GenerateJointFeatures(g: TabSlotGenerator, j: Joint, sqrt: real -> real)
    : (r: (Option<TabGeometry>, Option<SlotGeometry>))
    ensures r.0.None? <==> j.jointType == Inline
    ensures r.1.None? <==> j.jointType == Inline
    ensures r.0.Some? ==> r.0.value == CalcTabGeometry(g, j, j.tabFace, sqrt)
    ensures r.1.Some? ==> r.1.value == CalcSlotGeometry(g, j, j.slotFace, sqrt)
  {
    if j.jointType == Inline then (None, None)
    else (Some(CalcTabGeometry(g, j, j.tabFace, sqrt)), Some(CalcSlotGeometry(g, j, j.slotFace, sqrt)))
  }
}
