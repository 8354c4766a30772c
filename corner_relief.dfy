/** Corner relief for slots: the relief a cutting process calls for, and the
    plan-view placement of the dogbone circles and T-bone extensions (the
    solids themselves are built by the CAD kernel). */
module CornerRelief {
  import opened Numeric
  import opened Text
  import opened TabSlot

  /** The relief to use: radius relief for rounded tabs (corner radius above
      0.1 mm) whatever the process; otherwise dogbones for plasma and for CNC
      milling or routing, and radius relief for laser, waterjet and any
      process not listed. The process name is matched case-insensitively. */
  function RecommendReliefType(cuttingProcess: string, tabCornerRadius: real): (r: CornerReliefType)
    ensures r == Radius || r == Dogbone
    ensures tabCornerRadius > 0.1 ==> r == Radius
  {
    var process := Lower(cuttingProcess);
    if tabCornerRadius > 0.1 then Radius
    else if process in ["laser", "fiber laser", "co2 laser"] then Radius
    else if process in ["plasma"] then Dogbone
    else if process in ["waterjet"] then Radius
    else if process in ["cnc", "mill", "router"] then Dogbone
    else Radius
  }

  /** Dogbones are chosen exactly for square-cornered tabs cut by plasma, CNC
      mill or router; every other case gets radius relief. */
  lemma ReliefTable(cuttingProcess: string, tabCornerRadius: real)
    ensures RecommendReliefType(cuttingProcess, tabCornerRadius) == Dogbone <==>
      tabCornerRadius <= 0.1 && Lower(cuttingProcess) in ["plasma", "cnc", "mill", "router"]
  {
  }

  /** The choice does not depend on letter case. */
  lemma ReliefIgnoresCase(cuttingProcess: string, tabCornerRadius: real)
    ensures RecommendReliefType(Lower(cuttingProcess), tabCornerRadius)
         == RecommendReliefType(cuttingProcess, tabCornerRadius)
  {
    LowerIdempotent(cuttingProcess);
  }

  /** Plan-view centre of a dogbone circle. */
  datatype Point2 = Point2(x: real, y: real)

  /** The four circle centres, each moved in from a slot corner by the radius
      on both axes, so that the circle reaches the corner's two sides. */
  function DogboneCentres(slotWidth: real, slotLength: real, radius: real): (cs: seq<Point2>)
    ensures |cs| == 4
    ensures forall i :: 0 <= i < 4 ==>
      Abs(cs[i].x) == Abs(slotWidth / 2.0 - radius) && Abs(cs[i].y) == Abs(slotLength / 2.0 - radius)
  {
    var halfW := slotWidth / 2.0;
    var halfL := slotLength / 2.0;
    [Point2(halfW - radius, halfL - radius),
     Point2(halfW - radius, -halfL + radius),
     Point2(-halfW + radius, halfL - radius),
     Point2(-halfW + radius, -halfL + radius)]
  }

  /** The centres are the four sign combinations of one point, and for a radius
      no larger than half the width and half the length each circle touches the
      two sides of its corner (distance to each side = radius). */
  lemma DogboneCentresSymmetric(slotWidth: real, slotLength: real, radius: real)
    ensures var cs := DogboneCentres(slotWidth, slotLength, radius);
      cs[0].x == cs[1].x == -cs[2].x == -cs[3].x &&
      cs[0].y == -cs[1].y == cs[2].y == -cs[3].y
    ensures var cs := DogboneCentres(slotWidth, slotLength, radius);
      radius <= slotWidth / 2.0 && radius <= slotLength / 2.0 ==>
      forall i :: 0 <= i < 4 ==>
        Abs(cs[i].x) + radius == slotWidth / 2.0 && Abs(cs[i].y) + radius == slotLength / 2.0
  {
  }

  /** An axis-aligned box: minimum corner and size. */
  datatype Box = Box(origin: Vec3, sizeX: real, sizeY: real, sizeZ: real)

  /** The two T-bone extensions, one across each end of the slot: `2r` wide
      along the slot, `slot width + 2r` long across it, and through twice the
      slot depth centred on the face. */
  function TBoneExtensions(slotWidth: real, slotLength: real, slotDepth: real, radius: real): (bs: seq<Box>)
    ensures |bs| == 2
    ensures forall i :: 0 <= i < 2 ==>
      bs[i].sizeX == slotWidth + 2.0 * radius && bs[i].sizeY == 2.0 * radius &&
      bs[i].sizeZ == 2.0 * slotDepth
  {
    var halfL := slotLength / 2.0;
    var extensionWidth := radius * 2.0;
    var extensionLength := slotWidth + radius * 2.0;
    [Box(Vec3(-extensionLength / 2.0, halfL - extensionWidth / 2.0, -slotDepth),
         extensionLength, extensionWidth, slotDepth * 2.0),
     Box(Vec3(-extensionLength / 2.0, -halfL - extensionWidth / 2.0, -slotDepth),
         extensionLength, extensionWidth, slotDepth * 2.0)]
  }

  /** Each extension is centred on an end of the slot (y = ±l/2) and on its
      centre-line (x = 0), overhangs each long side of the slot by the radius,
      and spans z from -depth to +depth. */
  lemma TBoneCentred(slotWidth: real, slotLength: real, slotDepth: real, radius: real)
    ensures var bs := TBoneExtensions(slotWidth, slotLength, slotDepth, radius);
      bs[0].origin.y + bs[0].sizeY / 2.0 == slotLength / 2.0 &&
      bs[1].origin.y + bs[1].sizeY / 2.0 == -slotLength / 2.0 &&
      forall i :: 0 <= i < 2 ==>
        bs[i].origin.x + bs[i].sizeX / 2.0 == 0.0 &&
        bs[i].origin.x == -slotWidth / 2.0 - radius &&
        bs[i].origin.z == -slotDepth && bs[i].origin.z + bs[i].sizeZ == slotDepth
  {
  }
}
