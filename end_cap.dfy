/** End caps for open tube ends: the cap specification a profile calls for,
    the placement of cap tabs along an edge, cap names, and which member ends
    of a frame receive a cap. */
module EndCaps {
  import opened Numeric
  import opened TubeProfiles
  import opened TabSlot
  import Interference
  import BoxGenerator
  import JointDetector
  import Text

  datatype CapTabPosition = AllSides | TopBottom | LeftRight | NoTabs

  datatype EndCapSpec = EndCapSpec(
    tubeWidth: real,
    tubeHeight: real,
    wallThickness: real,
    cornerRadius: real,
    capThickness: real,
    tabDepth: real,
    tabWidth: real,
    tabsPerSide: int,
    tabPosition: CapTabPosition,
    fitClearance: real,
    notches: seq<Interference.Notch>)

  /** A cap for one end ("start" or "end") of a member. */
  datatype EndCap = EndCap(spec: EndCapSpec, memberId: string, end: string)

  /** `Cap_<id>_Start` or `Cap_<id>_End`, or `EndCap_Start` / `EndCap_End`
      without an id; any end other than "start" is labelled End. */
  function GetName(cap: EndCap): (r: string)
    ensures cap.end == "start" <==> Text.EndsWith(r, "_Start")
    ensures cap.end != "start" <==> Text.EndsWith(r, "_End")
    ensures 4 + |cap.memberId| < |r|
    ensures cap.memberId != "" ==> r[..4] == "Cap_" && r[4..4 + |cap.memberId|] == cap.memberId
    ensures cap.memberId == "" ==> r == "EndCap_Start" || r == "EndCap_End"
  {
    var endLabel := if cap.end == "start" then "Start" else "End";
    var r := if cap.memberId != "" then "Cap_" + cap.memberId + "_" + endLabel else "EndCap_" + endLabel;
    assert r[|r| - |endLabel| - 1..] == "_" + endLabel;
    assert r[|r| - 1] == if cap.end == "start" then 't' else 'd';
    r
  }

  /** Caps of members with ids get distinct names unless they share the id
      and the end label. */
  lemma GetNameInjective(a: EndCap, b: EndCap)
    requires a.memberId != "" && b.memberId != ""
    requires GetName(a) == GetName(b)
    ensures a.memberId == b.memberId
    ensures (a.end == "start") == (b.end == "start")
  {
    var r := GetName(a);
    var labelLength := if a.end == "start" then 6 else 4;
    assert r == "Cap_" + a.memberId + r[|r| - labelLength..];
    assert r == "Cap_" + b.memberId + r[|r| - labelLength..];
    assert a.memberId == r[4..|r| - labelLength];
    assert b.memberId == r[4..|r| - labelLength];
  }

  /** The generator's settings: cap plate thickness and tab depth ratio. */
  datatype EndCapGenerator = EndCapGenerator(profile: TubeProfile, capThickness: real, tabDepthRatio: real)
  {
    function TubeW(): real { profile.geometry.outerWidthMm }
    function TubeH(): real { profile.geometry.outerHeightMm }
    function WallT(): real { profile.geometry.wallThicknessMm }
  }

  function NewEndCapGenerator(profile: TubeProfile): EndCapGenerator
  {
    EndCapGenerator(profile, 3.0, 0.5)
  }

  /** A cap specification for the profile: tabs ten wall ratios deep and 40% of
      the smaller tube side wide, the profile's slot clearance as fit clearance,
      and one notch (1 mm clearance) per member tab entering the tube end. */
  function CreateCapSpec(gen: EndCapGenerator, memberTabs: seq<TabGeometry>,
                         tabPosition: CapTabPosition, tabsPerSide: int): (s: EndCapSpec)
    ensures s.tabDepth == gen.WallT() * gen.tabDepthRatio * 10.0
    ensures s.tabWidth == Min(gen.TubeW(), gen.TubeH()) * 0.4
    ensures s.tabWidth <= 0.4 * gen.TubeW() && s.tabWidth <= 0.4 * gen.TubeH()
    ensures s.fitClearance == gen.profile.tolerances.slotClearanceMm
    ensures s.capThickness == gen.capThickness && s.tabsPerSide == tabsPerSide && s.tabPosition == tabPosition
    ensures s.tubeWidth == gen.TubeW() && s.tubeHeight == gen.TubeH() && s.wallThickness == gen.WallT()
    ensures s.notches == [] <==> memberTabs == []
    ensures s.notches == Interference.NotchPositions(memberTabs, 1.0)
  {
    var spec := EndCapSpec(
      gen.TubeW(), gen.TubeH(), gen.WallT(), gen.profile.geometry.innerCornerRadiusMm,
      gen.capThickness, gen.WallT() * gen.tabDepthRatio * 10.0, Min(gen.TubeW(), gen.TubeH()) * 0.4,
      tabsPerSide, tabPosition, gen.profile.tolerances.slotClearanceMm, []);
    if |memberTabs| > 0 then spec.(notches := Interference.NotchPositions(memberTabs, 1.0))
    else spec
  }

  // ---------------------------------------------------------------------------
  // Cap tab placement

  /** Offset of tab `index` of `total` from the centre of an edge: centred for
      a single tab, otherwise spaced evenly with equal end gaps. */
  function CalcTabOffset(index: int, total: int, edgeLength: real): (o: real)
    requires 0 <= index < total
    ensures total == 1 ==> o == 0.0
    ensures 0.0 < edgeLength ==> -edgeLength / 2.0 < o < edgeLength / 2.0
  {
    if total == 1 then 0.0
    else
      var spacing := edgeLength / (total + 1) as real;
      SpacedInside(index, total, edgeLength);
      -edgeLength / 2.0 + spacing * (index + 1) as real
  }

  /** Spacing an edge into total + 1 equal gaps puts every one of the total
      inner division points strictly inside the edge. */
  lemma SpacedInside(index: int, total: int, edgeLength: real)
    requires 0 <= index < total
    ensures var spacing := edgeLength / (total + 1) as real;
      0.0 < edgeLength ==> -edgeLength / 2.0 < -edgeLength / 2.0 + spacing * (index + 1) as real < edgeLength / 2.0
  {
    if 0.0 < edgeLength {
      var n := (total + 1) as real;
      var spacing := edgeLength / n;
      assert spacing * n == edgeLength;
      MulLtPos(spacing, 0.0, (index + 1) as real);
      MulLtPos(spacing, (index + 1) as real, n);
    }
  }

  /** The single-tab case agrees with the general formula. */
  lemma SingleTabCentred(edgeLength: real)
    ensures CalcTabOffset(0, 1, edgeLength) == -edgeLength / 2.0 + edgeLength / 2.0 * 1.0
  {
  }

  lemma MulLtPos(s: real, a: real, b: real)
    requires 0.0 < s && a < b
    ensures s * a < s * b
  {
  }

  /** On an edge of positive length the offsets increase strictly with the
      index. */
  lemma TabOffsetsIncrease(i: int, j: int, total: int, edgeLength: real)
    requires 0 <= i < j < total && 0.0 < edgeLength
    ensures CalcTabOffset(i, total, edgeLength) < CalcTabOffset(j, total, edgeLength)
  {
    var spacing := edgeLength / (total + 1) as real;
    MulLtPos(spacing, (i + 1) as real, (j + 1) as real);
  }

  /** The offsets are symmetric about the edge centre. */
  lemma TabOffsetsSymmetric(i: int, total: int, edgeLength: real)
    requires 0 <= i < total
    ensures CalcTabOffset(i, total, edgeLength) == -CalcTabOffset(total - 1 - i, total, edgeLength)
  {
    if total > 1 {
      var n := (total + 1) as real;
      var spacing := edgeLength / n;
      assert spacing * n == edgeLength;
      assert spacing * (i + 1) as real + spacing * (total - i) as real == spacing * n;
    }
  }

  // ---------------------------------------------------------------------------
  // Caps for a frame

  /** The member ends taken by joints: the end of each joint's slotted member
      and the start of its tab member. */
  function JointedEnds(joints: seq<JointDetector.Joint>): (ends: set<(string, string)>)
    ensures forall id :: (id, "end") in ends <==> exists k :: 0 <= k < |joints| && joints[k].memberA.memberId == id
    ensures forall id :: (id, "start") in ends <==> exists k :: 0 <= k < |joints| && joints[k].memberB.memberId == id
    ensures forall e :: e in ends ==> e.1 == "start" || e.1 == "end"
  {
    if |joints| == 0 then {}
    else
      var rest := JointedEnds(joints[..|joints| - 1]);
      var j := joints[|joints| - 1];
      assert forall k :: 0 <= k < |joints| - 1 ==> joints[..|joints| - 1][k] == joints[k];
      rest + {(j.memberA.memberId, "end"), (j.memberB.memberId, "start")}
  }

  /** The cap specification every frame cap uses: default generator, no
      member tabs. */
  function FrameCapSpec(profile: TubeProfile): EndCapSpec
  {
    CreateCapSpec(NewEndCapGenerator(profile), [], TopBottom, 1)
  }

  /** The caps after visiting the members in order: a start cap under
      `<id>_start` unless the member's start is jointed, and likewise an end
      cap under `<id>_end`. */
  function FrameCaps(members: seq<BoxGenerator.FrameMember>, spec: EndCapSpec, jointed: set<(string, string)>)
    : map<string, EndCap>
  {
    if |members| == 0 then map[]
    else
      var prev := FrameCaps(members[..|members| - 1], spec, jointed);
      var id := BoxGenerator.GetName(members[|members| - 1]);
      var withStart := if (id, "start") !in jointed then prev[id + "_start" := EndCap(spec, id, "start")] else prev;
      if (id, "end") !in jointed then withStart[id + "_end" := EndCap(spec, id, "end")] else withStart
  }

  /** `k` is `<id>_<e>` for member i, whose end `e` ("start" or "end") no
      joint takes. */
  predicate OpenAt(members: seq<BoxGenerator.FrameMember>, jointed: set<(string, string)>, i: int, e: string, k: string)
  {
    0 <= i < |members| && (e == "start" || e == "end") &&
    (BoxGenerator.GetName(members[i]), e) !in jointed && k == BoxGenerator.GetName(members[i]) + "_" + e
  }

  /** `k` names an open end of some member. */
  ghost predicate OpenEnd(members: seq<BoxGenerator.FrameMember>, jointed: set<(string, string)>, k: string)
  {
    exists i, e :: OpenAt(members, jointed, i, e, k)
  }

  /** `k` names an open end of the member called `id`. */
  predicate OpenEndOf(id: string, jointed: set<(string, string)>, k: string)
  {
    ((id, "start") !in jointed && k == id + "_" + "start") || ((id, "end") !in jointed && k == id + "_" + "end")
  }

  /** Visiting one more member adds the keys of its open ends. */
  lemma FrameCapsStep(members: seq<BoxGenerator.FrameMember>, spec: EndCapSpec, jointed: set<(string, string)>)
    requires |members| > 0
    ensures var id := BoxGenerator.GetName(members[|members| - 1]);
      forall k :: k in FrameCaps(members, spec, jointed) <==>
        k in FrameCaps(members[..|members| - 1], spec, jointed) || OpenEndOf(id, jointed, k)
  {
    var id := BoxGenerator.GetName(members[|members| - 1]);
    assert id + "_start" == id + "_" + "start";
    assert id + "_end" == id + "_" + "end";
  }

  /** An open end of the members is one of the first members' or one of the
      last member's. */
  lemma OpenEndStep(members: seq<BoxGenerator.FrameMember>, jointed: set<(string, string)>, k: string)
    requires |members| > 0
    ensures OpenEnd(members, jointed, k) <==>
      OpenEnd(members[..|members| - 1], jointed, k) || OpenEndOf(BoxGenerator.GetName(members[|members| - 1]), jointed, k)
  {
    var init := members[..|members| - 1];
    var last := |members| - 1;
    if OpenEnd(members, jointed, k) {
      var i, e :| OpenAt(members, jointed, i, e, k);
      if i < last {
        assert OpenAt(init, jointed, i, e, k);
      }
    }
    if OpenEnd(init, jointed, k) {
      var i, e :| OpenAt(init, jointed, i, e, k);
      assert OpenAt(members, jointed, i, e, k);
    }
    if OpenEndOf(BoxGenerator.GetName(members[last]), jointed, k) {
      if OpenAt(members, jointed, last, "start", k) {
        assert OpenEnd(members, jointed, k);
      } else {
        assert OpenAt(members, jointed, last, "end", k);
      }
    }
  }

  /** A cap appears under `<id>_<end>` exactly for the member ends not taken by
      a joint. */
  lemma {:induction false} FrameCapsKeys(members: seq<BoxGenerator.FrameMember>, spec: EndCapSpec,
                                         jointed: set<(string, string)>)
    ensures forall k :: k in FrameCaps(members, spec, jointed) <==> OpenEnd(members, jointed, k)
  {
    if |members| > 0 {
      FrameCapsKeys(members[..|members| - 1], spec, jointed);
      FrameCapsStep(members, spec, jointed);
      forall k
        ensures k in FrameCaps(members, spec, jointed) <==> OpenEnd(members, jointed, k)
      {
        OpenEndStep(members, jointed, k);
      }
    }
  }

  /** Each cap carries the shared spec, its member's id and its end, is stored
      under `<id>_<end>`, and sits on an end no joint takes. */
  lemma {:induction false} FrameCapsValues(members: seq<BoxGenerator.FrameMember>, spec: EndCapSpec,
                                           jointed: set<(string, string)>)
    ensures forall k :: k in FrameCaps(members, spec, jointed) ==>
      var cap := FrameCaps(members, spec, jointed)[k];
      cap.spec == spec && k == cap.memberId + "_" + cap.end && (cap.memberId, cap.end) !in jointed
  {
    if |members| > 0 {
      FrameCapsValues(members[..|members| - 1], spec, jointed);
      var id := BoxGenerator.GetName(members[|members| - 1]);
      assert id + "_start" == id + "_" + "start";
      assert id + "_end" == id + "_" + "end";
    }
  }

  /** Builds the set of jointed ends, then visits every member. */
  method GenerateEndCapsForFrame(frameMembers: seq<BoxGenerator.FrameMember>, profile: TubeProfile,
                                 joints: seq<JointDetector.Joint>) returns (caps: map<string, EndCap>)
    ensures caps == FrameCaps(frameMembers, FrameCapSpec(profile), JointedEnds(joints))
  {
    var generator := NewEndCapGenerator(profile);
    caps := map[];
    var jointedEnds: set<(string, string)> := {};
    for k := 0 to |joints|
      invariant jointedEnds == JointedEnds(joints[..k])
    {
      assert joints[..k + 1][..k] == joints[..k];
      jointedEnds := jointedEnds + {(joints[k].memberA.memberId, "end")};
      jointedEnds := jointedEnds + {(joints[k].memberB.memberId, "start")};
    }
    assert joints[..|joints|] == joints;
    for i := 0 to |frameMembers|
      invariant caps == FrameCaps(frameMembers[..i], FrameCapSpec(profile), jointedEnds)
    {
      assert frameMembers[..i + 1][..i] == frameMembers[..i];
      var memberId := BoxGenerator.GetName(frameMembers[i]);
      if (memberId, "start") !in jointedEnds {
        var spec := CreateCapSpec(generator, [], TopBottom, 1);
        caps := caps[memberId + "_start" := EndCap(spec, memberId, "start")];
      }
      if (memberId, "end") !in jointedEnds {
        var spec := CreateCapSpec(generator, [], TopBottom, 1);
        caps := caps[memberId + "_end" := EndCap(spec, memberId, "end")];
      }
    }
    assert frameMembers[..|frameMembers|] == frameMembers;
  }
}
