/** Interference between joinery features: axis-aligned bounding boxes of tabs
    and slots, the pairwise tab-tab and slot-slot scans, end-cap notches and the
    cap tab positions that clash with member tabs. */
module Interference {
  import opened Wrappers
  import opened Numeric
  import opened TabSlot
  import PairScan

  datatype InterferenceType = TabTab | TabSlot | SlotSlot | CapTab

  /** One reported clash; `location` is the midpoint of the two features. */
  datatype Interference = Interference(
    interferenceType: InterferenceType,
    featureA: string,
    featureB: string,
    location: Vec3,
    overlapVolume: real)

  /** Two intervals, each widened by `t`, meet. */
  predicate AxisOverlap(lo: real, hi: real, otherLo: real, otherHi: real, t: real)
  {
    otherLo - t <= hi && lo <= otherHi + t
  }

  datatype BoundingBox = BoundingBox(minX: real, minY: real, minZ: real, maxX: real, maxY: real, maxZ: real)
  {
    /** The boxes, each grown by `tolerance`, overlap on every axis (a negative
        tolerance demands that much overlap): on each axis this box's maximum
        reaches the other's minimum less the tolerance, and its minimum stays
        below the other's maximum plus the tolerance. */
    predicate Intersects(other: BoundingBox, tolerance: real): (r: bool)
      ensures r <==> AxisOverlap(minX, maxX, other.minX, other.maxX, tolerance) &&
                     AxisOverlap(minY, maxY, other.minY, other.maxY, tolerance) &&
                     AxisOverlap(minZ, maxZ, other.minZ, other.maxZ, tolerance)
    {
      !(maxX < other.minX - tolerance || minX > other.maxX + tolerance ||
        maxY < other.minY - tolerance || minY > other.maxY + tolerance ||
        maxZ < other.minZ - tolerance || minZ > other.maxZ + tolerance)
    }

    predicate WellFormed()
    {
      minX <= maxX && minY <= maxY && minZ <= maxZ
    }
  }

  /** The test is symmetric in the two boxes, and a larger tolerance never
      turns a clash into none. */
  lemma IntersectsSymmetricMonotone(a: BoundingBox, b: BoundingBox, t: real, t': real)
    ensures a.Intersects(b, t) == b.Intersects(a, t)
    ensures t <= t' && a.Intersects(b, t) ==> a.Intersects(b, t')
  {
  }

  /** A well-formed box clashes with itself at any non-negative tolerance. */
  lemma IntersectsItself(a: BoundingBox, t: real)
    requires a.WellFormed() && 0.0 <= t
    ensures a.Intersects(a, t)
  {
  }

  /** The segment a feature sweeps: from its position along its direction by
      its depth. */
  function SweepEnd(position: Vec3, direction: Vec3, depth: real): Vec3
  {
    Vec3(position.x + direction.x * depth, position.y + direction.y * depth, position.z + direction.z * depth)
  }

  /** On one axis, [lo, hi] less `pad` at each end is the smallest interval
      holding both coordinates `a` and `b`: each end is reached by one of them. */
  predicate TightAround(lo: real, hi: real, a: real, b: real, pad: real)
  {
    && lo + pad <= a && lo + pad <= b && a <= hi - pad && b <= hi - pad
    && (lo + pad == a || lo + pad == b)
    && (hi - pad == a || hi - pad == b)
  }

  /** A tab's box: the swept segment grown by half the width on x and y and
      half the thickness on z, whatever the tab's orientation. */
  function FromTab(tab: TabGeometry): (b: BoundingBox)
    ensures var p := tab.position;
      var e := SweepEnd(p, tab.direction, tab.depth);
      TightAround(b.minX, b.maxX, p.x, e.x, tab.width / 2.0) &&
      TightAround(b.minY, b.maxY, p.y, e.y, tab.width / 2.0) &&
      TightAround(b.minZ, b.maxZ, p.z, e.z, tab.thickness / 2.0)
    ensures 0.0 <= tab.width && 0.0 <= tab.thickness ==> b.WellFormed()
    ensures var e := SweepEnd(tab.position, tab.direction, tab.depth);
      b.maxX - b.minX == Abs(e.x - tab.position.x) + tab.width &&
      b.maxY - b.minY == Abs(e.y - tab.position.y) + tab.width &&
      b.maxZ - b.minZ == Abs(e.z - tab.position.z) + tab.thickness
  {
    var p := tab.position;
    var e := SweepEnd(p, tab.direction, tab.depth);
    var halfW := tab.width / 2.0;
    var halfT := tab.thickness / 2.0;
    BoundingBox(Min(p.x, e.x) - halfW, Min(p.y, e.y) - halfW, Min(p.z, e.z) - halfT,
                Max(p.x, e.x) + halfW, Max(p.y, e.y) + halfW, Max(p.z, e.z) + halfT)
  }

  /** A slot's box: the swept segment grown on every axis by the larger of half
      its width and half its length. */
  function FromSlot(slot: SlotGeometry): (b: BoundingBox)
    ensures var pad := Max(slot.width / 2.0, slot.length / 2.0);
      var e := SweepEnd(slot.position, slot.direction, slot.depth);
      b.maxX - b.minX == Abs(e.x - slot.position.x) + 2.0 * pad &&
      b.maxY - b.minY == Abs(e.y - slot.position.y) + 2.0 * pad &&
      b.maxZ - b.minZ == Abs(e.z - slot.position.z) + 2.0 * pad
    ensures var pad := Max(slot.width / 2.0, slot.length / 2.0);
      var p := slot.position;
      var e := SweepEnd(p, slot.direction, slot.depth);
      TightAround(b.minX, b.maxX, p.x, e.x, pad) &&
      TightAround(b.minY, b.maxY, p.y, e.y, pad) &&
      TightAround(b.minZ, b.maxZ, p.z, e.z, pad)
    ensures 0.0 <= slot.width || 0.0 <= slot.length ==> b.WellFormed()
  {
    var p := slot.position;
    var e := SweepEnd(p, slot.direction, slot.depth);
    var pad := Max(slot.width / 2.0, slot.length / 2.0);
    BoundingBox(Min(p.x, e.x) - pad, Min(p.y, e.y) - pad, Min(p.z, e.z) - pad,
                Max(p.x, e.x) + pad, Max(p.y, e.y) + pad, Max(p.z, e.z) + pad)
  }

  function Centre(p: Vec3, q: Vec3): Vec3
  {
    Vec3((p.x + q.x) / 2.0, (p.y + q.y) / 2.0, (p.z + q.z) / 2.0)
  }

  // ---------------------------------------------------------------------------
  // Pairwise scans

  function TabClash(a: (string, TabGeometry), b: (string, TabGeometry)): Interference
  {
    Interference(TabTab, "Tab from " + a.0, "Tab from " + b.0, Centre(a.1.position, b.1.position), 0.0)
  }

  function TabTabTest(tolerance: real): ((string, TabGeometry), (string, TabGeometry)) -> Option<Interference>
  {
    (a: (string, TabGeometry), b: (string, TabGeometry)) =>
      if FromTab(a.1).Intersects(FromTab(b.1), tolerance) then Some(TabClash(a, b)) else None
  }

  /** Every pair i < j of tabs whose boxes meet at the tolerance, in (i, j)
      order. */
  method CheckTabTabInterference(tabs: seq<(string, TabGeometry)>, tolerance: real)
    returns (interferences: seq<Interference>)
    ensures interferences == PairScan.Scan(tabs, TabTabTest(tolerance))
    ensures forall r :: r in interferences <==>
      exists p, q :: 0 <= p < q < |tabs| &&
        FromTab(tabs[p].1).Intersects(FromTab(tabs[q].1), tolerance) && r == TabClash(tabs[p], tabs[q])
  {
    interferences := PairScan.ScanPairs(tabs, TabTabTest(tolerance));
    forall r
      ensures r in interferences <==>
        exists p, q :: 0 <= p < q < |tabs| &&
          FromTab(tabs[p].1).Intersects(FromTab(tabs[q].1), tolerance) && r == TabClash(tabs[p], tabs[q])
    {
      PairScan.ScanMembers(tabs, TabTabTest(tolerance), r);
    }
  }

  /** Two equal tabs at different places in the list are always reported at
      a non-negative tolerance (a tab is never paired with itself, but its copy
      is). */
  lemma DuplicateTabsReported(tabs: seq<(string, TabGeometry)>, tolerance: real, p: nat, q: nat)
    requires p < q < |tabs| && tabs[p].1 == tabs[q].1
    requires 0.0 <= tolerance && 0.0 <= tabs[p].1.width && 0.0 <= tabs[p].1.thickness
    ensures TabClash(tabs[p], tabs[q]) in PairScan.Scan(tabs, TabTabTest(tolerance))
  {
    IntersectsItself(FromTab(tabs[p].1), tolerance);
    PairScan.ScanMembers(tabs, TabTabTest(tolerance), TabClash(tabs[p], tabs[q]));
  }

  function SlotClash(a: (string, SlotGeometry), b: (string, SlotGeometry)): Interference
  {
    Interference(SlotSlot, "Slot from " + a.0, "Slot from " + b.0, Centre(a.1.position, b.1.position), 0.0)
  }

  function SlotSlotTest(minWeb: real): ((string, SlotGeometry), (string, SlotGeometry)) -> Option<Interference>
  {
    (a: (string, SlotGeometry), b: (string, SlotGeometry)) =>
      if FromSlot(a.1).Intersects(FromSlot(b.1), -minWeb) then Some(SlotClash(a, b)) else None
  }

  /** Every pair i < j of slots whose boxes meet with the tolerance -minWeb. */
  method CheckSlotSlotInterference(slots: seq<(string, SlotGeometry)>, minWeb: real)
    returns (interferences: seq<Interference>)
    ensures interferences == PairScan.Scan(slots, SlotSlotTest(minWeb))
    ensures forall r :: r in interferences <==>
      exists p, q :: 0 <= p < q < |slots| &&
        FromSlot(slots[p].1).Intersects(FromSlot(slots[q].1), -minWeb) && r == SlotClash(slots[p], slots[q])
  {
    interferences := PairScan.ScanPairs(slots, SlotSlotTest(minWeb));
    forall r
      ensures r in interferences <==>
        exists p, q :: 0 <= p < q < |slots| &&
          FromSlot(slots[p].1).Intersects(FromSlot(slots[q].1), -minWeb) && r == SlotClash(slots[p], slots[q])
    {
      PairScan.ScanMembers(slots, SlotSlotTest(minWeb), r);
    }
  }

  /** A gap between the two boxes on some axis. */
  predicate Separated(a: BoundingBox, b: BoundingBox)
  {
    a.maxX < b.minX || b.maxX < a.minX || a.maxY < b.minY ||
    b.maxY < a.minY || a.maxZ < b.minZ || b.maxZ < a.minZ
  }

  /** With tolerance -w the test flags two boxes exactly when, on every axis,
      each reaches at least w into the other. So two boxes with a gap between
      them on some axis are never flagged when w >= 0: the check looks for
      overlapping slots, not for slots closer than w. */
  lemma SlotTestNeedsOverlap(a: BoundingBox, b: BoundingBox, minWeb: real)
    ensures a.Intersects(b, -minWeb) <==>
      a.maxX >= b.minX + minWeb && b.maxX >= a.minX + minWeb &&
      a.maxY >= b.minY + minWeb && b.maxY >= a.minY + minWeb &&
      a.maxZ >= b.minZ + minWeb && b.maxZ >= a.minZ + minWeb
    ensures 0.0 <= minWeb && Separated(a, b) ==> !a.Intersects(b, -minWeb)
  {
  }

  // ---------------------------------------------------------------------------
  // End-cap notches and cap-tab conflicts

  /** A notch in an end cap: centre (x, y) on the cap, width and depth. */
  datatype Notch = Notch(centreX: real, centreY: real, width: real, depth: real)

  function NotchFor(tab: TabGeometry, clearance: real): Notch
  {
    Notch(tab.position.x, tab.position.y, tab.width + 2.0 * clearance, tab.depth + clearance)
  }

  /** The notches for a list of tabs, one per tab in tab order. */
  function NotchPositions(memberTabs: seq<TabGeometry>, clearance: real): (ns: seq<Notch>)
    ensures |ns| == |memberTabs|
    ensures forall i :: 0 <= i < |ns| ==>
      ns[i].centreX == memberTabs[i].position.x && ns[i].centreY == memberTabs[i].position.y &&
      ns[i].width - memberTabs[i].width == 2.0 * clearance &&
      ns[i].depth - memberTabs[i].depth == clearance
  {
    seq(|memberTabs|, i requires 0 <= i < |memberTabs| => NotchFor(memberTabs[i], clearance))
  }

  /** One notch per tab, in tab order, centred on the tab and clearing it by
      the clearance on both sides and beyond its depth. The tube size is not
      used. */
  method CalcNotchPositions(memberTabs: seq<TabGeometry>, tubeWidth: real, tubeHeight: real, clearance: real)
    returns (notches: seq<Notch>)
    ensures notches == NotchPositions(memberTabs, clearance)
  {
    notches := [];
    for i := 0 to |memberTabs|
      invariant |notches| == i
      invariant forall k :: 0 <= k < i ==> notches[k] == NotchFor(memberTabs[k], clearance)
    {
      var p := memberTabs[i].position;
      var notchWidth := memberTabs[i].width + 2.0 * clearance;
      var notchDepth := memberTabs[i].depth + clearance;
      notches := notches + [Notch(p.x, p.y, notchWidth, notchDepth)];
    }
  }

  /** A cap tab at (x, y) clashes with a member tab on an X face (|px| more
      than half the width less 1 mm) when the x offsets differ by less than half
      the tab width; failing the X-face test, with one on a Y face when the y
      offsets do. */
  predicate CapClash(cap: (real, real), tab: TabGeometry, tubeWidth: real, tubeHeight: real)
  {
    var p := tab.position;
    if Abs(p.x) > tubeWidth / 2.0 - 1.0 then Abs(cap.0 - p.x) < tab.width / 2.0
    else if Abs(p.y) > tubeHeight / 2.0 - 1.0 then Abs(cap.1 - p.y) < tab.width / 2.0
    else false
  }

  predicate ClashesAny(cap: (real, real), tabs: seq<TabGeometry>, tubeWidth: real, tubeHeight: real)
  {
    exists k :: 0 <= k < |tabs| && CapClash(cap, tabs[k], tubeWidth, tubeHeight)
  }

  /** The cap positions that clash with some member tab, in order. */
  function CapConflicts(caps: seq<(real, real)>, tabs: seq<TabGeometry>, tubeWidth: real, tubeHeight: real)
    : seq<(real, real)>
  {
    if |caps| == 0 then []
    else
      var last := caps[|caps| - 1];
      CapConflicts(caps[..|caps| - 1], tabs, tubeWidth, tubeHeight)
        + (if ClashesAny(last, tabs, tubeWidth, tubeHeight) then [last] else [])
  }

  /** The conflicts are a subsequence of the cap positions: each cap position
      contributes itself once if it clashes with some member tab, otherwise
      nothing; there are none without member tabs. */
  lemma {:induction false} CapConflictsSubsequence(caps: seq<(real, real)>, tabs: seq<TabGeometry>, tw: real, th: real)
    ensures |CapConflicts(caps, tabs, tw, th)| <= |caps|
    ensures forall c :: c in CapConflicts(caps, tabs, tw, th) <==> c in caps && ClashesAny(c, tabs, tw, th)
    ensures |tabs| == 0 ==> CapConflicts(caps, tabs, tw, th) == []
  {
    if |caps| > 0 {
      var init := caps[..|caps| - 1];
      CapConflictsSubsequence(init, tabs, tw, th);
      assert caps == init + [caps[|caps| - 1]];
    }
  }

  /** For each cap position, scans the member tabs and records the position at
      the first clash, then moves on to the next position. */
  method FindCapTabConflicts(memberId: string, memberTabs: seq<TabGeometry>, capTabPositions: seq<(real, real)>,
                             tubeWidth: real, tubeHeight: real) returns (conflicts: seq<(real, real)>)
    ensures conflicts == CapConflicts(capTabPositions, memberTabs, tubeWidth, tubeHeight)
  {
    conflicts := [];
    for c := 0 to |capTabPositions|
      invariant conflicts == CapConflicts(capTabPositions[..c], memberTabs, tubeWidth, tubeHeight)
    {
      var cap := capTabPositions[c];
      assert capTabPositions[..c + 1][..c] == capTabPositions[..c];
      var k := 0;
      while k < |memberTabs|
        invariant 0 <= k <= |memberTabs|
        invariant forall m :: 0 <= m < k ==> !CapClash(cap, memberTabs[m], tubeWidth, tubeHeight)
        invariant conflicts == CapConflicts(capTabPositions[..c], memberTabs, tubeWidth, tubeHeight)
      {
        var p := memberTabs[k].position;
        var tabHalfW := memberTabs[k].width / 2.0;
        if Abs(p.x) > tubeWidth / 2.0 - 1.0 {
          if Abs(cap.0 - p.x) < tabHalfW {
            conflicts := conflicts + [cap];
            break;
          }
        } else if Abs(p.y) > tubeHeight / 2.0 - 1.0 {
          if Abs(cap.1 - p.y) < tabHalfW {
            conflicts := conflicts + [cap];
            break;
          }
        }
        k := k + 1;
      }
    }
    assert capTabPositions[..|capTabPositions|] == capTabPositions;
  }

  // ---------------------------------------------------------------------------
  // The checker

  datatype InterferenceChecker = InterferenceChecker(tolerance: real, minSlotWeb: real)

  const DefaultChecker := InterferenceChecker(0.5, 3.0)

  /** The tab-tab results followed by the slot-slot results. */
  method CheckAll(checker: InterferenceChecker, tabs: seq<(string, TabGeometry)>, slots: seq<(string, SlotGeometry)>)
    returns (interferences: seq<Interference>)
    ensures interferences == PairScan.Scan(tabs, TabTabTest(checker.tolerance))
                           + PairScan.Scan(slots, SlotSlotTest(checker.minSlotWeb))
    ensures forall r :: r in interferences ==> r.interferenceType == TabTab || r.interferenceType == SlotSlot
  {
    var tabTab := CheckTabTabInterference(tabs, checker.tolerance);
    var slotSlot := CheckSlotSlotInterference(slots, checker.minSlotWeb);
    interferences := tabTab + slotSlot;
  }
}
