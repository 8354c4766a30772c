/** The frame layout of a box cabinet: the effective outer dimensions for each
    dimension reference, and the start position, length, rotation, face and
    index of every frame member (corner verticals, horizontal and depth rails,
    vertical supports, cross members and feet). */
module BoxGenerator {
  import opened Wrappers
  import opened Numeric
  import opened Text
  import opened BoxSpecs
  import opened TubeProfiles

  datatype MemberType =
    | CornerVertical
    | VerticalSupport
    | HorizontalRailTop
    | HorizontalRailBottom
    | DepthRail
    | CrossMemberTop
    | CrossMemberBottom
    | Foot

  /** The enum's string value. */
  function TypeValue(t: MemberType): string
  {
    match t
    case CornerVertical => "corner_vertical"
    case VerticalSupport => "vertical_support"
    case HorizontalRailTop => "horizontal_rail_top"
    case HorizontalRailBottom => "horizontal_rail_bottom"
    case DepthRail => "depth_rail"
    case CrossMemberTop => "cross_member_top"
    case CrossMemberBottom => "cross_member_bottom"
    case Foot => "foot"
  }

  datatype MemberFace = Front | Back | Left | Right | Top | Bottom

  function FaceValue(f: MemberFace): string
  {
    match f
    case Front => "front"
    case Back => "back"
    case Left => "left"
    case Right => "right"
    case Top => "top"
    case Bottom => "bottom"
  }

  /** One frame member before any geometry is built: start position (mm), length
      along its local axis, Euler rotation in degrees, optional explicit name and
      a 1-based index among members of its kind (0 = unnumbered). */
  datatype FrameMember = FrameMember(
    memberType: MemberType,
    face: Option<MemberFace>,
    position: Vec3,
    lengthMm: real,
    rotation: Vec3,
    name: string,
    index: int)

  /** The member's display name: the explicit name when there is one, otherwise
      the title-cased type, the title-cased face and the index (when positive)
      joined by underscores, with every space turned into an underscore. */
  function GetName(m: FrameMember): (r: string)
    ensures m.name != "" ==> r == m.name
    ensures m.name == "" ==> forall i :: 0 <= i < |r| ==> r[i] != ' '
  {
    if m.name != "" then m.name
    else
      var parts := [Title(ReplaceChar(TypeValue(m.memberType), '_', ' '))]
        + (if m.face.Some? then [Title(FaceValue(m.face.value))] else [])
        + (if m.index > 0 then [NatToString(m.index)] else []);
      ReplaceChar(Join("_", parts), ' ', '_')
  }

  /** The title-cased type as it appears in a generated name: each
      underscore-separated word capitalised, underscores kept. */
  function TypeLabel(t: MemberType): string
  {
    ReplaceChar(Title(ReplaceChar(TypeValue(t), '_', ' ')), ' ', '_')
  }

  predicate NoSpace(s: string)
  {
    forall i :: 0 <= i < |s| ==> s[i] != ' '
  }

  lemma NoSpaceConcat(a: string, b: string)
    requires NoSpace(a) && NoSpace(b)
    ensures NoSpace(a + b)
  {
    forall i | 0 <= i < |a + b| ensures (a + b)[i] != ' ' {
      if i < |a| { assert (a + b)[i] == a[i]; } else { assert (a + b)[i] == b[i - |a|]; }
    }
  }

  lemma FaceLabelNoSpace(f: MemberFace)
    ensures NoSpace(Title(FaceValue(f)))
  {
    var v := FaceValue(f);
    assert NoSpace(v);
  }

  /** The name parts after the type, each led by `_`. */
  function NameTail(m: FrameMember): string
  {
    (if m.face.Some? then "_" + Title(FaceValue(m.face.value)) else "")
      + (if m.index > 0 then "_" + NatToString(m.index) else "")
  }

  lemma NameTailNoSpace(m: FrameMember)
    ensures NoSpace(NameTail(m))
  {
    var fs := if m.face.Some? then "_" + Title(FaceValue(m.face.value)) else "";
    var ns := if m.index > 0 then "_" + NatToString(m.index) else "";
    if m.face.Some? {
      FaceLabelNoSpace(m.face.value);
      NoSpaceConcat("_", Title(FaceValue(m.face.value)));
    }
    if m.index > 0 {
      assert NoSpace(NatToString(m.index));
      NoSpaceConcat("_", NatToString(m.index));
    }
    NoSpaceConcat(fs, ns);
  }

  /** Joining the type with the face and index parts. */
  lemma JoinNameParts(m: FrameMember, typePart: string)
    ensures Join("_", [typePart] + (if m.face.Some? then [Title(FaceValue(m.face.value))] else [])
                                 + (if m.index > 0 then [NatToString(m.index)] else []))
         == typePart + NameTail(m)
  {
    var rest := (if m.face.Some? then [Title(FaceValue(m.face.value))] else [])
      + (if m.index > 0 then [NatToString(m.index)] else []);
    if rest != [] {
      assert ([typePart] + rest)[1..] == rest;
      if |rest| == 2 {
        assert rest[1..] == [NatToString(m.index)];
      }
    }
  }

  /** A generated name is the type label, then `_` and the title-cased face
      when there is one, then `_` and the decimal index when it is positive. */
  lemma GeneratedName(m: FrameMember)
    requires m.name == ""
    ensures GetName(m) == TypeLabel(m.memberType)
      + (if m.face.Some? then "_" + Title(FaceValue(m.face.value)) else "")
      + (if m.index > 0 then "_" + NatToString(m.index) else "")
  {
    var typePart := Title(ReplaceChar(TypeValue(m.memberType), '_', ' '));
    JoinNameParts(m, typePart);
    ReplaceCharConcat(typePart, NameTail(m), ' ', '_');
    NameTailNoSpace(m);
    ReplaceCharAbsent(NameTail(m), ' ', '_');
  }

  // Rotations used by the layout.
  const NoRotation := Vec3(0.0, 0.0, 0.0)
  /** Lies along +X. */
  const AlongX := Vec3(0.0, 90.0, 0.0)
  /** Lies along +Y. */
  const AlongY := Vec3(-90.0, 0.0, 0.0)

  /** Effective outer length, height and depth of the frame. */
  datatype Dims = Dims(length: real, height: real, depth: real)

  /** The outer dimensions implied by the specs: exterior dimensions are used
      as given, interior ones gain a tube width on each side and centreline ones
      half a tube width on each side. */
  function EffectiveDims(s: BoxSpecsData, tw: real): (d: Dims)
    ensures d.length - s.lengthMm == d.height - s.heightMm == d.depth - s.depthMm
    ensures s.dimensionReference == Exterior ==> d == Dims(s.lengthMm, s.heightMm, s.depthMm)
    ensures 0.0 <= tw ==> s.lengthMm <= d.length && s.heightMm <= d.height && s.depthMm <= d.depth
  {
    match s.dimensionReference
    case Exterior => Dims(s.lengthMm, s.heightMm, s.depthMm)
    case Interior => Dims(s.lengthMm + 2.0 * tw, s.heightMm + 2.0 * tw, s.depthMm + 2.0 * tw)
    case Centerline => Dims(s.lengthMm + tw, s.heightMm + tw, s.depthMm + tw)
  }

  function WithReference(s: BoxSpecsData, r: DimensionReference, grow: real): BoxSpecsData
  {
    s.(dimensionReference := r, lengthMm := s.lengthMm + grow,
       heightMm := s.heightMm + grow, depthMm := s.depthMm + grow)
  }

  /** An interior box is the exterior box two tube widths larger, a centreline
      box the exterior box one tube width larger; for a non-negative tube width
      the exterior, centreline and interior readings of the same numbers are
      ever larger. */
  lemma EffectiveDimsAgree(s: BoxSpecsData, tw: real)
    ensures EffectiveDims(s.(dimensionReference := Interior), tw)
         == EffectiveDims(WithReference(s, Exterior, 2.0 * tw), tw)
    ensures EffectiveDims(s.(dimensionReference := Centerline), tw)
         == EffectiveDims(WithReference(s, Exterior, tw), tw)
    ensures 0.0 <= tw ==>
      EffectiveDims(s.(dimensionReference := Exterior), tw).length
        <= EffectiveDims(s.(dimensionReference := Centerline), tw).length
        <= EffectiveDims(s.(dimensionReference := Interior), tw).length
  {
  }

  // ---------------------------------------------------------------------------
  // Layout of each group of members, as functions of the effective dimensions
  // and the tube width.

  /** Corner order: front-left, front-right, back-left, back-right; the profile
      is centred, so each corner sits half a tube width in from the faces. */
  function CornerX(d: Dims, tw: real, i: int): real
  {
    if i % 2 == 0 then tw / 2.0 else d.length - tw / 2.0
  }

  function CornerY(d: Dims, tw: real, i: int): real
  {
    if i < 2 then tw / 2.0 else d.depth - tw / 2.0
  }

  function CornerVerticalAt(d: Dims, tw: real, i: nat): FrameMember
  {
    FrameMember(CornerVertical, Some(if i < 2 then Front else Back),
      Vec3(CornerX(d, tw, i), CornerY(d, tw, i), tw), d.height - 2.0 * tw,
      NoRotation, "", i + 1)
  }

  function CornerVerticals(d: Dims, tw: real): seq<FrameMember>
  {
    seq(4, i requires 0 <= i < 4 => CornerVerticalAt(d, tw, i))
  }

  /** The four corner verticals stand unrotated between the bottom and top
      rails (from z = tw to z = h - tw), numbered 1 to 4, on the front face for
      the first two and the back face for the other two; each pair of
      neighbouring corners is symmetric about the middle of the length. */
  lemma CornerVerticalLayout(d: Dims, tw: real)
    ensures var ms := CornerVerticals(d, tw);
      |ms| == 4 &&
      forall i :: 0 <= i < 4 ==>
        ms[i].memberType == CornerVertical && ms[i].rotation == NoRotation &&
        ms[i].index == i + 1 && ms[i].lengthMm == d.height - 2.0 * tw &&
        ms[i].position.z == tw && ms[i].position.z + ms[i].lengthMm == d.height - tw &&
        ms[i].face == Some(if i < 2 then Front else Back)
    ensures var ms := CornerVerticals(d, tw);
      ms[0].position.x + ms[1].position.x == d.length &&
      ms[2].position.x + ms[3].position.x == d.length &&
      ms[0].position.y + ms[2].position.y == d.depth
  {
  }

  function RailAt(d: Dims, tw: real, i: nat): FrameMember
  {
    var z := if i % 2 == 0 then tw / 2.0 else d.height - tw / 2.0;
    var y := if i < 2 then tw / 2.0 else d.depth - tw / 2.0;
    FrameMember(if z > tw / 2.0 then HorizontalRailTop else HorizontalRailBottom,
      Some(if i < 2 then Front else Back), Vec3(0.0, y, z), d.length, AlongX, "", i + 1)
  }

  /** Bottom front, top front, bottom back, top back. */
  function HorizontalRails(d: Dims, tw: real): seq<FrameMember>
  {
    seq(4, i requires 0 <= i < 4 => RailAt(d, tw, i))
  }

  /** The four rails run the full length from x = 0 along +X; a rail is a top
      rail exactly when its centre is above half a tube width. So when the
      height exceeds the tube width the second and fourth rails are the top
      ones, and otherwise all four are bottom rails. */
  lemma HorizontalRailLayout(d: Dims, tw: real)
    ensures var ms := HorizontalRails(d, tw);
      |ms| == 4 &&
      forall i :: 0 <= i < 4 ==>
        ms[i].lengthMm == d.length && ms[i].rotation == AlongX && ms[i].position.x == 0.0 &&
        ms[i].index == i + 1 &&
        (ms[i].memberType == HorizontalRailTop <==> ms[i].position.z > tw / 2.0) &&
        (ms[i].memberType == HorizontalRailTop || ms[i].memberType == HorizontalRailBottom)
    ensures var ms := HorizontalRails(d, tw);
      forall i :: 0 <= i < 4 ==>
        (ms[i].memberType == HorizontalRailTop <==> i % 2 == 1 && tw < d.height)
  {
  }

  function DepthRailAt(d: Dims, tw: real, i: nat): FrameMember
  {
    var x := if i < 2 then tw / 2.0 else d.length - tw / 2.0;
    var z := if i % 2 == 0 then tw / 2.0 else d.height - tw / 2.0;
    FrameMember(DepthRail, Some(if i < 2 then Left else Right), Vec3(x, tw, z),
      d.depth - 2.0 * tw, AlongY, "", i + 1)
  }

  /** Bottom left, top left, bottom right, top right. */
  function DepthRails(d: Dims, tw: real): seq<FrameMember>
  {
    seq(4, i requires 0 <= i < 4 => DepthRailAt(d, tw, i))
  }

  /** The depth rails run along +Y between the front and back rails: they
      start at y = tw and end at y = d - tw. */
  lemma DepthRailLayout(d: Dims, tw: real)
    ensures var ms := DepthRails(d, tw);
      |ms| == 4 &&
      forall i :: 0 <= i < 4 ==>
        ms[i].memberType == DepthRail && ms[i].rotation == AlongY && ms[i].index == i + 1 &&
        ms[i].position.y == tw && ms[i].lengthMm == d.depth - 2.0 * tw &&
        ms[i].position.y + ms[i].lengthMm == d.depth - tw &&
        ms[i].face == Some(if i < 2 then Left else Right)
  {
  }

  /** The i-th of n evenly spaced positions along the length less one tube
      width: `spacing * (i + 1)` with `spacing = (l - tw) / (n + 1)`. */
  function SupportX(d: Dims, tw: real, n: nat, i: int): real
  {
    (d.length - tw) / (n + 1) as real * (i + 1) as real
  }

  /** Whether a group of supports is emitted: a positive count and a positive
      on-centre spacing. */
  function GroupCount(n: int, ocMm: real): (k: nat)
  {
    if n > 0 && ocMm > 0.0 then n else 0
  }

  function VerticalSupportAt(d: Dims, tw: real, n: nat, face: MemberFace, y: real, i: nat): FrameMember
  {
    FrameMember(VerticalSupport, Some(face), Vec3(SupportX(d, tw, n, i), y, tw),
      d.height - 2.0 * tw, NoRotation, "", i + 1)
  }

  function FrontSupports(s: BoxSpecsData, d: Dims, tw: real): seq<FrameMember>
  {
    var n := GroupCount(CalcVerticalCountFront(s, tw), s.verticalOcFrontMm);
    seq(n, i requires 0 <= i < n => VerticalSupportAt(d, tw, n, Front, tw / 2.0, i))
  }

  function BackSupports(s: BoxSpecsData, d: Dims, tw: real): seq<FrameMember>
  {
    var n := GroupCount(CalcVerticalCountBack(s, tw), s.verticalOcBackMm);
    seq(n, i requires 0 <= i < n => VerticalSupportAt(d, tw, n, Back, d.depth - tw / 2.0, i))
  }

  function VerticalSupports(s: BoxSpecsData, d: Dims, tw: real): seq<FrameMember>
  {
    FrontSupports(s, d, tw) + BackSupports(s, d, tw)
  }

  function CrossMemberAt(d: Dims, tw: real, n: nat, top: bool, i: nat): FrameMember
  {
    FrameMember(if top then CrossMemberTop else CrossMemberBottom, Some(if top then Top else Bottom),
      Vec3(SupportX(d, tw, n, i), tw, if top then d.height - tw / 2.0 else tw / 2.0),
      d.depth - 2.0 * tw, AlongY, "", i + 1)
  }

  function TopCrossMembers(s: BoxSpecsData, d: Dims, tw: real): seq<FrameMember>
  {
    var n := GroupCount(CalcHorizontalCountTop(s, tw), s.horizontalOcTopMm);
    seq(n, i requires 0 <= i < n => CrossMemberAt(d, tw, n, true, i))
  }

  function BottomCrossMembers(s: BoxSpecsData, d: Dims, tw: real): seq<FrameMember>
  {
    var n := GroupCount(CalcHorizontalCountBottom(s, tw), s.horizontalOcBottomMm);
    seq(n, i requires 0 <= i < n => CrossMemberAt(d, tw, n, false, i))
  }

  function CrossMembers(s: BoxSpecsData, d: Dims, tw: real): seq<FrameMember>
  {
    TopCrossMembers(s, d, tw) + BottomCrossMembers(s, d, tw)
  }

  function FootAt(d: Dims, tw: real, footMm: real, i: nat): FrameMember
  {
    FrameMember(Foot, Some(Bottom), Vec3(CornerX(d, tw, i), CornerY(d, tw, i), -footMm),
      footMm, NoRotation, "", i + 1)
  }

  function Feet(d: Dims, tw: real, footMm: real): seq<FrameMember>
  {
    seq(4, i requires 0 <= i < 4 => FootAt(d, tw, footMm, i))
  }

  /** A foot stands under each corner vertical: same x and y, and it reaches
      from z = -foot height up to z = 0. */
  lemma FeetUnderCorners(d: Dims, tw: real, footMm: real)
    ensures var fs := Feet(d, tw, footMm); var cs := CornerVerticals(d, tw);
      |fs| == 4 &&
      forall i :: 0 <= i < 4 ==>
        fs[i].memberType == Foot && fs[i].lengthMm == footMm &&
        fs[i].position.z + fs[i].lengthMm == 0.0 &&
        fs[i].position.x == cs[i].position.x && fs[i].position.y == cs[i].position.y
  {
  }

  /** Every member of the frame, in the order the generator emits them. */
  function Members(s: BoxSpecsData, d: Dims, tw: real): seq<FrameMember>
  {
    CornerVerticals(d, tw) + HorizontalRails(d, tw) + DepthRails(d, tw)
      + VerticalSupports(s, d, tw) + CrossMembers(s, d, tw)
      + (if s.footHeightMm > 0.0 then Feet(d, tw, s.footHeightMm) else [])
  }

  /** Twelve fixed members (four corner verticals, four horizontal rails, four
      depth rails), one per support and cross member counted from the specs,
      and four feet exactly when the foot height is positive. */
  lemma MemberCount(s: BoxSpecsData, d: Dims, tw: real)
    ensures |Members(s, d, tw)| ==
      12 + CalcVerticalCountFront(s, tw) + CalcVerticalCountBack(s, tw)
         + CalcHorizontalCountTop(s, tw) + CalcHorizontalCountBottom(s, tw)
         + (if s.footHeightMm > 0.0 then 4 else 0)
  {
    GroupCountIsCount(CalcVerticalCountFront(s, tw), s.lengthMm, s.verticalOcFrontMm, tw);
    GroupCountIsCount(CalcVerticalCountBack(s, tw), s.lengthMm, s.verticalOcBackMm, tw);
    GroupCountIsCount(CalcHorizontalCountTop(s, tw), s.depthMm, s.horizontalOcTopMm, tw);
    GroupCountIsCount(CalcHorizontalCountBottom(s, tw), s.depthMm, s.horizontalOcBottomMm, tw);
  }

  /** A positive support count already implies a positive spacing, so the
      spacing test of the generator never drops a group. */
  lemma GroupCountIsCount(n: int, spanMm: real, ocMm: real, tw: real)
    requires n == SupportCount(spanMm, ocMm, tw)
    ensures GroupCount(n, ocMm) == n
  {
  }

  lemma ScaleStrict(a: real, b: real, c: real)
    requires a < b && 0.0 < c
    ensures a * c < b * c
  {
  }

  /** The supports of a group sit at strictly increasing x, strictly between 0
      and l - tw, when l > tw. */
  lemma SupportPositions(d: Dims, tw: real, n: nat, i: nat, j: nat)
    requires tw < d.length && i < j < n
    ensures 0.0 < SupportX(d, tw, n, i) < SupportX(d, tw, n, j) < d.length - tw
  {
    var spacing := (d.length - tw) / (n + 1) as real;
    assert 0.0 < spacing;
    ScaleStrict(0.0, (i + 1) as real, spacing);
    ScaleStrict((i + 1) as real, (j + 1) as real, spacing);
    ScaleStrict((j + 1) as real, (n + 1) as real, spacing);
    assert (n + 1) as real * spacing == d.length - tw;
  }

  /** Every support and cross member of a group is numbered from 1 and placed
      by SupportX; front supports run along y = tw/2 and back ones along
      y = d - tw/2, and cross members start at y = tw with length d - 2tw
      along +Y, at the top or bottom rail height. */
  lemma SupportLayout(s: BoxSpecsData, d: Dims, tw: real)
    ensures var fs := FrontSupports(s, d, tw);
      forall i :: 0 <= i < |fs| ==>
        fs[i].position == Vec3(SupportX(d, tw, |fs|, i), tw / 2.0, tw) &&
        fs[i].lengthMm == d.height - 2.0 * tw && fs[i].index == i + 1 &&
        fs[i].face == Some(Front)
    ensures var bs := BackSupports(s, d, tw);
      forall i :: 0 <= i < |bs| ==>
        bs[i].position == Vec3(SupportX(d, tw, |bs|, i), d.depth - tw / 2.0, tw) &&
        bs[i].lengthMm == d.height - 2.0 * tw && bs[i].index == i + 1 &&
        bs[i].face == Some(Back)
    ensures var cs := CrossMembers(s, d, tw);
      forall i :: 0 <= i < |cs| ==>
        cs[i].rotation == AlongY && cs[i].position.y == tw &&
        cs[i].lengthMm == d.depth - 2.0 * tw &&
        (cs[i].memberType == CrossMemberTop <==> cs[i].face == Some(Top)) &&
        cs[i].position.z == (if cs[i].memberType == CrossMemberTop then d.height - tw / 2.0 else tw / 2.0)
  {
  }

  // ---------------------------------------------------------------------------
  // The generator object.

  class BoxFrameGenerator {
    const specs: BoxSpecsData
    const profile: TubeProfile
    const tubeW: real
    const tubeH: real
    var effLength: real
    var effHeight: real
    var effDepth: real

    function Dimensions(): Dims
      reads this
    {
      Dims(effLength, effHeight, effDepth)
    }

    constructor(specs: BoxSpecsData, profile: TubeProfile)
      ensures this.specs == specs && this.profile == profile
      ensures tubeW == profile.geometry.outerWidthMm && tubeH == profile.geometry.outerHeightMm
      ensures Dimensions() == EffectiveDims(specs, tubeW)
    {
      this.specs := specs;
      this.profile := profile;
      tubeW := profile.geometry.outerWidthMm;
      tubeH := profile.geometry.outerHeightMm;
      new;
      CalcEffectiveDims();
    }

    /** Sets the effective dimensions from the specs and the tube width. */
    method CalcEffectiveDims()
      modifies this
      ensures Dimensions() == EffectiveDims(specs, tubeW)
    {
      var s := specs;
      var tw := tubeW;
      if s.dimensionReference == Exterior {
        effLength := s.lengthMm;
        effHeight := s.heightMm;
        effDepth := s.depthMm;
      } else if s.dimensionReference == Interior {
        effLength := s.lengthMm + 2.0 * tw;
        effHeight := s.heightMm + 2.0 * tw;
        effDepth := s.depthMm + 2.0 * tw;
      } else {
        effLength := s.lengthMm + tw;
        effHeight := s.heightMm + tw;
        effDepth := s.depthMm + tw;
      }
    }

    method GenCornerVerticals() returns (members: seq<FrameMember>)
      ensures members == CornerVerticals(Dimensions(), tubeW)
    {
      var d := Dimensions();
      members := [];
      for i := 0 to 4
        invariant members == CornerVerticals(d, tubeW)[..i]
      {
        members := members + [CornerVerticalAt(d, tubeW, i)];
      }
    }

    method GenHorizontalRails() returns (members: seq<FrameMember>)
      ensures members == HorizontalRails(Dimensions(), tubeW)
    {
      var d := Dimensions();
      members := [];
      for i := 0 to 4
        invariant members == HorizontalRails(d, tubeW)[..i]
      {
        members := members + [RailAt(d, tubeW, i)];
      }
    }

    method GenDepthRails() returns (members: seq<FrameMember>)
      ensures members == DepthRails(Dimensions(), tubeW)
    {
      var d := Dimensions();
      members := [];
      for i := 0 to 4
        invariant members == DepthRails(d, tubeW)[..i]
      {
        members := members + [DepthRailAt(d, tubeW, i)];
      }
    }

    method GenVerticalSupports() returns (members: seq<FrameMember>)
      ensures members == VerticalSupports(specs, Dimensions(), tubeW)
    {
      var d := Dimensions();
      var tw := tubeW;
      members := [];
      var nFront := CalcVerticalCountFront(specs, tw);
      if nFront > 0 && specs.verticalOcFrontMm > 0.0 {
        for i := 0 to nFront
          invariant members == FrontSupports(specs, d, tw)[..i]
        {
          members := members + [VerticalSupportAt(d, tw, nFront, Front, tw / 2.0, i)];
        }
      }
      ghost var front := members;
      assert front == FrontSupports(specs, d, tw);
      var nBack := CalcVerticalCountBack(specs, tw);
      if nBack > 0 && specs.verticalOcBackMm > 0.0 {
        for i := 0 to nBack
          invariant members == front + BackSupports(specs, d, tw)[..i]
        {
          members := members + [VerticalSupportAt(d, tw, nBack, Back, d.depth - tw / 2.0, i)];
        }
      }
    }

    method GenCrossMembers() returns (members: seq<FrameMember>)
      ensures members == CrossMembers(specs, Dimensions(), tubeW)
    {
      var d := Dimensions();
      var tw := tubeW;
      members := [];
      var nTop := CalcHorizontalCountTop(specs, tw);
      if nTop > 0 && specs.horizontalOcTopMm > 0.0 {
        for i := 0 to nTop
          invariant members == TopCrossMembers(specs, d, tw)[..i]
        {
          members := members + [CrossMemberAt(d, tw, nTop, true, i)];
        }
      }
      ghost var top := members;
      assert top == TopCrossMembers(specs, d, tw);
      var nBottom := CalcHorizontalCountBottom(specs, tw);
      if nBottom > 0 && specs.horizontalOcBottomMm > 0.0 {
        for i := 0 to nBottom
          invariant members == top + BottomCrossMembers(specs, d, tw)[..i]
        {
          members := members + [CrossMemberAt(d, tw, nBottom, false, i)];
        }
      }
    }

    method GenFeet() returns (members: seq<FrameMember>)
      ensures members == Feet(Dimensions(), tubeW, specs.footHeightMm)
    {
      var d := Dimensions();
      members := [];
      for i := 0 to 4
        invariant members == Feet(d, tubeW, specs.footHeightMm)[..i]
      {
        members := members + [FootAt(d, tubeW, specs.footHeightMm, i)];
      }
    }

    /** All member definitions, in emission order. */
    method GenerateMembers() returns (members: seq<FrameMember>)
      ensures members == Members(specs, Dimensions(), tubeW)
    {
      var corners := GenCornerVerticals();
      var rails := GenHorizontalRails();
      var depthRails := GenDepthRails();
      var supports := GenVerticalSupports();
      var crosses := GenCrossMembers();
      members := corners + rails + depthRails + supports + crosses;
      if specs.footHeightMm > 0.0 {
        var feet := GenFeet();
        members := members + feet;
      }
    }
  }
}
