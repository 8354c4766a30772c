/** The jointed box orchestrator: frame members become axes, joints are
    detected between them, and joints, tabs and slots are distributed into a
    per-member dictionary kept in insertion order. */
module JointedBox {
  import opened Wrappers
  import opened Numeric
  import opened TubeProfiles
  import opened JointDetector
  import opened TabSlot
  import BoxGenerator
  import BoxSpecs
  import Interference
  import PairScan

  // ---------------------------------------------------------------------------
  // Member axes

  /** The unit axis a rotation selects: about ±90 degrees around X gives +Y,
      otherwise about ±90 degrees around Y gives +X, and anything else +Z. */
  function JointedAxis(rotation: Vec3): (axis: Vec3)
    ensures Abs(Abs(rotation.x) - 90.0) < 1.0 ==> axis.y == 1.0 && axis.x == axis.z == 0.0
    ensures Abs(Abs(rotation.x) - 90.0) >= 1.0 && Abs(Abs(rotation.y) - 90.0) < 1.0 ==>
      axis.x == 1.0 && axis.y == axis.z == 0.0
    ensures Abs(Abs(rotation.x) - 90.0) >= 1.0 && Abs(Abs(rotation.y) - 90.0) >= 1.0 ==>
      axis.z == 1.0 && axis.x == axis.y == 0.0
  {
    if Abs(Abs(rotation.x) - 90.0) < 1.0 then Vec3(0.0, 1.0, 0.0)
    else if Abs(Abs(rotation.y) - 90.0) < 1.0 then Vec3(1.0, 0.0, 0.0)
    else Vec3(0.0, 0.0, 1.0)
  }

  lemma JointedAxisUnit(rotation: Vec3)
    ensures Dot(JointedAxis(rotation), JointedAxis(rotation)) == 1.0
  {
  }

  /** The axis ignores the sign of the X and Y rotations, and for non-negative
      ones agrees with the detector's own conversion. */
  lemma JointedAxisSignless(rotation: Vec3)
    ensures JointedAxis(Vec3(-rotation.x, -rotation.y, rotation.z)) == JointedAxis(rotation)
    ensures 0.0 <= rotation.x && 0.0 <= rotation.y ==> JointedAxis(rotation) == FrameAxis(rotation)
  {
  }

  /** Depth rails, laid out with a -90 degree rotation around X, run along +Y
      here, as do the layout's other members rotated that way; members rotated
      +90 around Y run along +X and unrotated ones along +Z. */
  lemma DepthRailAlongY(d: BoxGenerator.Dims, tw: real, i: nat)
    requires i < 4
    ensures JointedAxis(BoxGenerator.DepthRails(d, tw)[i].rotation) == Vec3(0.0, 1.0, 0.0)
    ensures JointedAxis(BoxGenerator.AlongY) == Vec3(0.0, 1.0, 0.0)
    ensures JointedAxis(BoxGenerator.AlongX) == Vec3(1.0, 0.0, 0.0)
    ensures JointedAxis(BoxGenerator.NoRotation) == Vec3(0.0, 0.0, 1.0)
  {
  }

  function JointedEnd(fm: BoxGenerator.FrameMember): (e: Vec3)
    ensures e == Along(fm.position, fm.lengthMm, JointedAxis(fm.rotation))
  {
    var p := fm.position;
    if Abs(Abs(fm.rotation.x) - 90.0) < 1.0 then Vec3(p.x, p.y + fm.lengthMm, p.z)
    else if Abs(Abs(fm.rotation.y) - 90.0) < 1.0 then Vec3(p.x + fm.lengthMm, p.y, p.z)
    else Vec3(p.x, p.y, p.z + fm.lengthMm)
  }

  function JointedAxisOf(fm: BoxGenerator.FrameMember, g: ProfileGeometry): MemberAxis
  {
    MemberAxis(BoxGenerator.GetName(fm), fm.position, JointedEnd(fm), g.outerWidthMm, g.outerHeightMm)
  }

  function JointedAxes(fms: seq<BoxGenerator.FrameMember>, g: ProfileGeometry): seq<MemberAxis>
  {
    seq(|fms|, i requires 0 <= i < |fms| => JointedAxisOf(fms[i], g))
  }

  /** The axis of a member longer than 1e-6 starts at the member's position,
      has its length, runs along the axis its rotation selects and has the
      profile's cross-section. */
  lemma JointedAxisOfLength(fm: BoxGenerator.FrameMember, g: ProfileGeometry, sqrt: real -> real)
    requires IsSqrt(sqrt) && 0.000001 < fm.lengthMm
    ensures JointedAxisOf(fm, g).start == fm.position
    ensures Length(JointedAxisOf(fm, g), sqrt) == fm.lengthMm
    ensures LineDirection(JointedAxisOf(fm, g), sqrt) == JointedAxis(fm.rotation)
    ensures JointedAxisOf(fm, g).width == g.outerWidthMm && JointedAxisOf(fm, g).height == g.outerHeightMm
  {
    JointedAxisUnit(fm.rotation);
    AxisAligned(JointedAxisOf(fm, g), fm.lengthMm, JointedAxis(fm.rotation), sqrt);
  }

  // ---------------------------------------------------------------------------
  // The per-member dictionary

  datatype JointedMember = JointedMember(
    member: BoxGenerator.FrameMember,
    axis: MemberAxis,
    joints: seq<Joint>,
    tabs: seq<TabGeometry>,
    slots: seq<SlotGeometry>)

  function FreshEntry(fm: BoxGenerator.FrameMember, axis: MemberAxis): JointedMember
  {
    JointedMember(fm, axis, [], [], [])
  }

  /** A dictionary keyed by member id, with its keys in insertion order. */
  datatype Registry = Registry(order: seq<string>, entries: map<string, JointedMember>)
  {
    ghost predicate Valid()
    {
      (forall i, j :: 0 <= i < j < |order| ==> order[i] != order[j]) &&
      (forall k :: k in entries <==> k in order)
    }
  }

  const EmptyRegistry := Registry([], map[])

  /** Stores an entry; a new key goes to the end of the order, an existing one
      keeps its place. */
  function Put(r: Registry, id: string, jm: JointedMember): (r': Registry)
    ensures r.Valid() ==> r'.Valid()
    ensures id in r'.entries && r'.entries[id] == jm
  {
    Registry(if id in r.entries then r.order else r.order + [id], r.entries[id := jm])
  }

  /** One fresh entry per (member, axis) pair, for the first n pairs. */
  function AddEntries(r: Registry, fms: seq<BoxGenerator.FrameMember>, axes: seq<MemberAxis>, n: nat): Registry
    requires n <= |fms| && n <= |axes|
  {
    if n == 0 then r
    else Put(AddEntries(r, fms, axes, n - 1), axes[n - 1].memberId, FreshEntry(fms[n - 1], axes[n - 1]))
  }

  /** Entries keep their order, new keys going to the end. */
  lemma {:induction false} AddEntriesOrder(r: Registry, fms: seq<BoxGenerator.FrameMember>, axes: seq<MemberAxis>, n: nat)
    requires n <= |fms| && n <= |axes|
    ensures var r' := AddEntries(r, fms, axes, n);
      (r.Valid() ==> r'.Valid()) && |r.order| <= |r'.order| && r'.order[..|r.order|] == r.order
  {
    if n > 0 {
      AddEntriesOrder(r, fms, axes, n - 1);
      var prev := AddEntries(r, fms, axes, n - 1);
      assert (prev.order + [axes[n - 1].memberId])[..|r.order|] == prev.order[..|r.order|];
    }
  }

  /** The keys afterwards are the old ones and the ids of the first n axes. */
  lemma {:induction false} AddEntriesKeys(r: Registry, fms: seq<BoxGenerator.FrameMember>, axes: seq<MemberAxis>, n: nat)
    requires n <= |fms| && n <= |axes|
    ensures forall k :: k in AddEntries(r, fms, axes, n).entries <==>
      k in r.entries || exists i :: 0 <= i < n && axes[i].memberId == k
  {
    if n > 0 {
      AddEntriesKeys(r, fms, axes, n - 1);
    }
  }

  /** A key that is no axis id keeps its entry. */
  lemma {:induction false} AddEntriesKeeps(r: Registry, fms: seq<BoxGenerator.FrameMember>, axes: seq<MemberAxis>, n: nat,
                                           k: string)
    requires n <= |fms| && n <= |axes|
    requires k in r.entries && forall i :: 0 <= i < n ==> axes[i].memberId != k
    ensures k in AddEntries(r, fms, axes, n).entries && AddEntries(r, fms, axes, n).entries[k] == r.entries[k]
  {
    if n > 0 {
      AddEntriesKeeps(r, fms, axes, n - 1, k);
    }
  }

  /** Each axis id holds a fresh entry for the last pair with that id. */
  lemma {:induction false} AddEntriesFresh(r: Registry, fms: seq<BoxGenerator.FrameMember>, axes: seq<MemberAxis>, n: nat,
                                           i: nat)
    requires n <= |fms| && n <= |axes|
    requires i < n && forall i' :: i < i' < n ==> axes[i'].memberId != axes[i].memberId
    ensures axes[i].memberId in AddEntries(r, fms, axes, n).entries
    ensures AddEntries(r, fms, axes, n).entries[axes[i].memberId] == FreshEntry(fms[i], axes[i])
  {
    if i < n - 1 {
      AddEntriesFresh(r, fms, axes, n - 1, i);
    }
  }

  // Joints

  function AddJoint(r: Registry, id: string, j: Joint): Registry
  {
    if id in r.entries then Registry(r.order, r.entries[id := r.entries[id].(joints := r.entries[id].joints + [j])])
    else r
  }

  /** Each joint is appended to its slotted member's entry and then to its tab
      member's entry, when present. */
  function AttachJoints(r: Registry, js: seq<Joint>): Registry
  {
    if |js| == 0 then r
    else
      var j := js[|js| - 1];
      AddJoint(AddJoint(AttachJoints(r, js[..|js| - 1]), j.memberA.memberId, j), j.memberB.memberId, j)
  }

  /** The joints naming a member, in order, a joint appearing twice when it
      names the member on both sides. */
  function JointsFor(id: string, js: seq<Joint>): seq<Joint>
  {
    if |js| == 0 then []
    else
      var j := js[|js| - 1];
      JointsFor(id, js[..|js| - 1]) + (if j.memberA.memberId == id then [j] else [])
        + (if j.memberB.memberId == id then [j] else [])
  }

  /** Attaching joints keeps the keys and their order, and appends to each
      entry exactly the joints that name it. */
  lemma {:induction false} AttachJointsResult(r: Registry, js: seq<Joint>)
    ensures var r' := AttachJoints(r, js);
      r'.order == r.order && r'.entries.Keys == r.entries.Keys &&
      forall k :: k in r.entries ==> r'.entries[k] == r.entries[k].(joints := r.entries[k].joints + JointsFor(k, js))
  {
    if |js| > 0 {
      AttachJointsResult(r, js[..|js| - 1]);
    }
  }

  // Features

  function AddTab(r: Registry, id: string, t: TabGeometry): Registry
  {
    if id in r.entries then Registry(r.order, r.entries[id := r.entries[id].(tabs := r.entries[id].tabs + [t])])
    else r
  }

  function AddSlot(r: Registry, id: string, s: SlotGeometry): Registry
  {
    if id in r.entries then Registry(r.order, r.entries[id := r.entries[id].(slots := r.entries[id].slots + [s])])
    else r
  }

  /** One joint's features: none for an inline joint, otherwise its tab to
      the tab member's entry and its slot to the slotted member's entry, when
      present. */
  function FeatureStep(prev: Registry, j: Joint, g: TabSlotGenerator, sqrt: real -> real): Registry
  {
    if j.jointType == Inline then prev
    else
      var features := GenerateJointFeatures(g, j, sqrt);
      var withTab := if features.0.Some? then AddTab(prev, j.memberB.memberId, features.0.value) else prev;
      if features.1.Some? then AddSlot(withTab, j.memberA.memberId, features.1.value) else withTab
  }

  function NewTabs(id: string, j: Joint, g: TabSlotGenerator, sqrt: real -> real): seq<TabGeometry>
  {
    if j.jointType != Inline && j.memberB.memberId == id then [CalcTabGeometry(g, j, j.tabFace, sqrt)] else []
  }

  function NewSlots(id: string, j: Joint, g: TabSlotGenerator, sqrt: real -> real): seq<SlotGeometry>
  {
    if j.jointType != Inline && j.memberA.memberId == id then [CalcSlotGeometry(g, j, j.slotFace, sqrt)] else []
  }

  lemma FeatureStepResult(prev: Registry, j: Joint, g: TabSlotGenerator, sqrt: real -> real)
    ensures var r' := FeatureStep(prev, j, g, sqrt);
      r'.order == prev.order && r'.entries.Keys == prev.entries.Keys &&
      forall k :: k in prev.entries ==>
        r'.entries[k] == prev.entries[k].(tabs := prev.entries[k].tabs + NewTabs(k, j, g, sqrt),
                                          slots := prev.entries[k].slots + NewSlots(k, j, g, sqrt))
  {
  }

  /** The joints in order, each through FeatureStep. */
  function AttachFeatures(r: Registry, js: seq<Joint>, g: TabSlotGenerator, sqrt: real -> real): Registry
  {
    if |js| == 0 then r
    else FeatureStep(AttachFeatures(r, js[..|js| - 1], g, sqrt), js[|js| - 1], g, sqrt)
  }

  /** The tabs a member carries: one per non-inline joint with it as tab
      member. */
  function TabsFor(id: string, js: seq<Joint>, g: TabSlotGenerator, sqrt: real -> real): seq<TabGeometry>
  {
    if |js| == 0 then []
    else
      var j := js[|js| - 1];
      TabsFor(id, js[..|js| - 1], g, sqrt) + NewTabs(id, j, g, sqrt)
  }

  /** The slots a member receives: one per non-inline joint with it as slotted
      member. */
  function SlotsFor(id: string, js: seq<Joint>, g: TabSlotGenerator, sqrt: real -> real): seq<SlotGeometry>
  {
    if |js| == 0 then []
    else
      var j := js[|js| - 1];
      SlotsFor(id, js[..|js| - 1], g, sqrt) + NewSlots(id, j, g, sqrt)
  }

  /** Attaching features keeps the keys and their order. */
  lemma {:induction false} AttachFeaturesKeys(r: Registry, js: seq<Joint>, g: TabSlotGenerator, sqrt: real -> real)
    ensures var r' := AttachFeatures(r, js, g, sqrt);
      r'.order == r.order && r'.entries.Keys == r.entries.Keys
  {
    if |js| > 0 {
      AttachFeaturesKeys(r, js[..|js| - 1], g, sqrt);
      FeatureStepResult(AttachFeatures(r, js[..|js| - 1], g, sqrt), js[|js| - 1], g, sqrt);
    }
  }

  /** Attaching features appends to an entry exactly its tabs and slots. */
  lemma {:induction false} AttachFeaturesEntry(r: Registry, js: seq<Joint>, g: TabSlotGenerator, sqrt: real -> real,
                                               k: string)
    requires k in r.entries
    ensures var r' := AttachFeatures(r, js, g, sqrt);
      k in r'.entries &&
      r'.entries[k] == r.entries[k].(tabs := r.entries[k].tabs + TabsFor(k, js, g, sqrt),
                                     slots := r.entries[k].slots + SlotsFor(k, js, g, sqrt))
  {
    if |js| > 0 {
      var init := js[..|js| - 1];
      var j := js[|js| - 1];
      AttachFeaturesEntry(r, init, g, sqrt, k);
      var prev := AttachFeatures(r, init, g, sqrt);
      FeatureStepResult(prev, j, g, sqrt);
      var e := r.entries[k];
      assert e.tabs + TabsFor(k, init, g, sqrt) + NewTabs(k, j, g, sqrt) == e.tabs + TabsFor(k, js, g, sqrt);
      assert e.slots + SlotsFor(k, init, g, sqrt) + NewSlots(k, j, g, sqrt) == e.slots + SlotsFor(k, js, g, sqrt);
    }
  }

  /** How many pairs `zip` yields. */
  function ZipLength(a: nat, b: nat): nat
  {
    if a <= b then a else b
  }

  /** The dictionary after one run of generate, starting from `r`. */
  function Build(r: Registry, fms: seq<BoxGenerator.FrameMember>, axes: seq<MemberAxis>, js: seq<Joint>,
                 g: TabSlotGenerator, sqrt: real -> real): Registry
  {
    AttachFeatures(AttachJoints(AddEntries(r, fms, axes, ZipLength(|fms|, |axes|)), js), js, g, sqrt)
  }

  /** After a run, the entry of each member (the last one with its id) holds
      the member, its axis, the joints naming it, and the tabs and slots of the
      non-inline joints it takes part in. */
  lemma BuildEntry(r: Registry, fms: seq<BoxGenerator.FrameMember>, axes: seq<MemberAxis>, js: seq<Joint>,
                   g: TabSlotGenerator, sqrt: real -> real, i: nat)
    requires i < |fms| && i < |axes|
    requires forall i' :: i < i' < ZipLength(|fms|, |axes|) ==> axes[i'].memberId != axes[i].memberId
    ensures var id := axes[i].memberId;
      var r' := Build(r, fms, axes, js, g, sqrt);
      id in r'.entries &&
      r'.entries[id] == JointedMember(fms[i], axes[i], JointsFor(id, js), TabsFor(id, js, g, sqrt), SlotsFor(id, js, g, sqrt))
  {
    var n := ZipLength(|fms|, |axes|);
    AddEntriesFresh(r, fms, axes, n, i);
    var base := AddEntries(r, fms, axes, n);
    AttachJointsResult(base, js);
    AttachFeaturesEntry(AttachJoints(base, js), js, g, sqrt, axes[i].memberId);
  }

  /** A run keeps the old keys in their order, new ones going to the end, and
      its keys are the old ones and the axes' ids. */
  lemma BuildKeys(r: Registry, fms: seq<BoxGenerator.FrameMember>, axes: seq<MemberAxis>, js: seq<Joint>,
                  g: TabSlotGenerator, sqrt: real -> real)
    ensures var r' := Build(r, fms, axes, js, g, sqrt);
      (r.Valid() ==> r'.Valid()) && |r.order| <= |r'.order| && r'.order[..|r.order|] == r.order &&
      r'.order == AddEntries(r, fms, axes, ZipLength(|fms|, |axes|)).order &&
      forall k :: k in r'.entries <==> k in r.entries || exists i :: 0 <= i < ZipLength(|fms|, |axes|) && axes[i].memberId == k
  {
    var n := ZipLength(|fms|, |axes|);
    AddEntriesOrder(r, fms, axes, n);
    AddEntriesKeys(r, fms, axes, n);
    var base := AddEntries(r, fms, axes, n);
    AttachJointsResult(base, js);
    AttachFeaturesKeys(AttachJoints(base, js), js, g, sqrt);
  }

  /** A key that is no axis id keeps its entry, with the joints and features
      naming it appended. */
  lemma BuildKeeps(r: Registry, fms: seq<BoxGenerator.FrameMember>, axes: seq<MemberAxis>, js: seq<Joint>,
                   g: TabSlotGenerator, sqrt: real -> real, k: string)
    requires k in r.entries && forall i :: 0 <= i < ZipLength(|fms|, |axes|) ==> axes[i].memberId != k
    ensures var r' := Build(r, fms, axes, js, g, sqrt);
      k in r'.entries &&
      r'.entries[k] == r.entries[k].(joints := r.entries[k].joints + JointsFor(k, js),
                                     tabs := r.entries[k].tabs + TabsFor(k, js, g, sqrt),
                                     slots := r.entries[k].slots + SlotsFor(k, js, g, sqrt))
  {
    var n := ZipLength(|fms|, |axes|);
    AddEntriesKeeps(r, fms, axes, n, k);
    var base := AddEntries(r, fms, axes, n);
    AttachJointsResult(base, js);
    AttachFeaturesEntry(AttachJoints(base, js), js, g, sqrt, k);
  }

  /** Adding entries whose ids are all present already leaves the order alone. */
  lemma {:induction false} AddEntriesPresent(r: Registry, fms: seq<BoxGenerator.FrameMember>, axes: seq<MemberAxis>, n: nat)
    requires n <= |fms| && n <= |axes|
    requires forall i :: 0 <= i < n ==> axes[i].memberId in r.entries
    ensures AddEntries(r, fms, axes, n).order == r.order
  {
    if n > 0 {
      AddEntriesPresent(r, fms, axes, n - 1);
      AddEntriesKeys(r, fms, axes, n - 1);
    }
  }

  /** Every joint names members among the first n axes. */
  ghost predicate JointsAmong(js: seq<Joint>, axes: seq<MemberAxis>, n: nat)
  {
    forall j :: j in js ==>
      (exists i :: 0 <= i < n && i < |axes| && axes[i].memberId == j.memberA.memberId) &&
      (exists i :: 0 <= i < n && i < |axes| && axes[i].memberId == j.memberB.memberId)
  }

  /** Running generate again on the same members and joints rebuilds the same
      dictionary, since each member's entry is replaced by a fresh one. */
  lemma BuildIdempotent(r: Registry, fms: seq<BoxGenerator.FrameMember>, axes: seq<MemberAxis>, js: seq<Joint>,
                        g: TabSlotGenerator, sqrt: real -> real)
    requires JointsAmong(js, axes, ZipLength(|fms|, |axes|))
    ensures Build(Build(r, fms, axes, js, g, sqrt), fms, axes, js, g, sqrt) == Build(r, fms, axes, js, g, sqrt)
  {
    var r1 := Build(r, fms, axes, js, g, sqrt);
    var r2 := Build(r1, fms, axes, js, g, sqrt);
    RebuildOrder(r, fms, axes, js, g, sqrt);
    BuildKeys(r1, fms, axes, js, g, sqrt);
    BuildKeys(r, fms, axes, js, g, sqrt);
    forall k | k in r1.entries
      ensures r2.entries[k] == r1.entries[k]
    {
      RebuildEntry(r, fms, axes, js, g, sqrt, k);
    }
    assert r2.entries == r1.entries;
  }

  lemma RebuildOrder(r: Registry, fms: seq<BoxGenerator.FrameMember>, axes: seq<MemberAxis>, js: seq<Joint>,
                     g: TabSlotGenerator, sqrt: real -> real)
    ensures var r1 := Build(r, fms, axes, js, g, sqrt);
      Build(r1, fms, axes, js, g, sqrt).order == r1.order
  {
    var n := ZipLength(|fms|, |axes|);
    var r1 := Build(r, fms, axes, js, g, sqrt);
    BuildKeys(r, fms, axes, js, g, sqrt);
    BuildKeys(r1, fms, axes, js, g, sqrt);
    AddEntriesPresent(r1, fms, axes, n);
  }

  lemma RebuildEntry(r: Registry, fms: seq<BoxGenerator.FrameMember>, axes: seq<MemberAxis>, js: seq<Joint>,
                     g: TabSlotGenerator, sqrt: real -> real, k: string)
    requires JointsAmong(js, axes, ZipLength(|fms|, |axes|))
    requires k in Build(r, fms, axes, js, g, sqrt).entries
    ensures var r1 := Build(r, fms, axes, js, g, sqrt);
      var r2 := Build(r1, fms, axes, js, g, sqrt);
      k in r2.entries && r2.entries[k] == r1.entries[k]
  {
    var n := ZipLength(|fms|, |axes|);
    var r1 := Build(r, fms, axes, js, g, sqrt);
    if exists i :: 0 <= i < n && axes[i].memberId == k {
      var i :| 0 <= i < n && axes[i].memberId == k;
      var last := LastWithId(axes, n, i);
      BuildEntry(r, fms, axes, js, g, sqrt, last);
      BuildEntry(r1, fms, axes, js, g, sqrt, last);
    } else {
      NotNamed(js, axes, n, k, g, sqrt);
      BuildKeeps(r1, fms, axes, js, g, sqrt, k);
    }
  }

  /** The last index below n whose axis shares the id of axis i. */
  lemma LastWithId(axes: seq<MemberAxis>, n: nat, i: nat) returns (last: nat)
    requires i < n <= |axes|
    ensures i <= last < n && axes[last].memberId == axes[i].memberId
    ensures forall i' :: last < i' < n ==> axes[i'].memberId != axes[i].memberId
    decreases n - i
  {
    if exists i' :: i < i' < n && axes[i'].memberId == axes[i].memberId {
      var i' :| i < i' < n && axes[i'].memberId == axes[i].memberId;
      last := LastWithId(axes, n, i');
    } else {
      last := i;
    }
  }

  /** A key no joint names collects no joints, tabs or slots. */
  lemma {:induction false} NotNamed(js: seq<Joint>, axes: seq<MemberAxis>, n: nat, k: string,
                                    g: TabSlotGenerator, sqrt: real -> real)
    requires JointsAmong(js, axes, n)
    requires forall i :: 0 <= i < n && i < |axes| ==> axes[i].memberId != k
    ensures JointsFor(k, js) == [] && TabsFor(k, js, g, sqrt) == [] && SlotsFor(k, js, g, sqrt) == []
  {
    if |js| > 0 {
      var j := js[|js| - 1];
      assert j in js;
      assert forall x :: x in js[..|js| - 1] ==> x in js;
      NotNamed(js[..|js| - 1], axes, n, k, g, sqrt);
    }
  }

  /** Joints found by the pair scan name members of the scanned list. */
  lemma DetectedJointsAmong(axes: seq<MemberAxis>, tol: real, sqrt: real -> real)
    ensures JointsAmong(PairScan.Scan(axes, JointFinder(tol, sqrt)), axes, |axes|)
  {
    ScanJoints(axes, tol, sqrt);
    forall j | j in PairScan.Scan(axes, JointFinder(tol, sqrt))
      ensures (exists i :: 0 <= i < |axes| && axes[i].memberId == j.memberA.memberId) &&
              (exists i :: 0 <= i < |axes| && axes[i].memberId == j.memberB.memberId)
    {
      var p, q :| 0 <= p < q < |axes| && FindIntersection(axes[p], axes[q], tol, sqrt) == Some(j);
      TabBearerRule(axes[p], axes[q], tol, sqrt);
    }
  }

  // ---------------------------------------------------------------------------
  // Totals

  /** The non-inline joints, each of which yields one tab and one slot. */
  function NonInlineCount(js: seq<Joint>): nat
  {
    if |js| == 0 then 0
    else NonInlineCount(js[..|js| - 1]) + (if js[|js| - 1].jointType != Inline then 1 else 0)
  }

  /** The member id on one side of a joint: the tab member or the slotted one. */
  function SideId(j: Joint, tabSide: bool): string
  {
    if tabSide then j.memberB.memberId else j.memberA.memberId
  }

  /** How many non-inline joints have `id` on the given side. */
  function CountFor(id: string, js: seq<Joint>, tabSide: bool): nat
  {
    if |js| == 0 then 0
    else
      var j := js[|js| - 1];
      CountFor(id, js[..|js| - 1], tabSide) + (if j.jointType != Inline && SideId(j, tabSide) == id then 1 else 0)
  }

  lemma {:induction false} FeatureCounts(id: string, js: seq<Joint>, g: TabSlotGenerator, sqrt: real -> real)
    ensures |TabsFor(id, js, g, sqrt)| == CountFor(id, js, true)
    ensures |SlotsFor(id, js, g, sqrt)| == CountFor(id, js, false)
  {
    if |js| > 0 {
      FeatureCounts(id, js[..|js| - 1], g, sqrt);
    }
  }

  function SumCounts(order: seq<string>, js: seq<Joint>, tabSide: bool): nat
  {
    if |order| == 0 then 0
    else SumCounts(order[..|order| - 1], js, tabSide) + CountFor(order[|order| - 1], js, tabSide)
  }

  function Hit(order: seq<string>, id: string): nat
  {
    if |order| == 0 then 0
    else Hit(order[..|order| - 1], id) + (if order[|order| - 1] == id then 1 else 0)
  }

  /** A key that occurs once in a duplicate-free order is hit once. */
  lemma {:induction false} HitOnce(order: seq<string>, id: string)
    requires forall i, j :: 0 <= i < j < |order| ==> order[i] != order[j]
    ensures Hit(order, id) == if id in order then 1 else 0
  {
    if |order| > 0 {
      var init := order[..|order| - 1];
      HitOnce(init, id);
      assert order == init + [order[|order| - 1]];
      if order[|order| - 1] == id {
        assert id !in init by {
          forall i | 0 <= i < |init| ensures init[i] != id {
            assert init[i] == order[i];
          }
        }
      }
    }
  }

  /** Adding one joint to the list adds its hits to the sum. */
  lemma {:induction false} SumCountsStep(order: seq<string>, js: seq<Joint>, tabSide: bool)
    requires |js| > 0
    ensures var j := js[|js| - 1];
      SumCounts(order, js, tabSide) == SumCounts(order, js[..|js| - 1], tabSide)
        + (if j.jointType != Inline then Hit(order, SideId(j, tabSide)) else 0)
  {
    if |order| > 0 {
      SumCountsStep(order[..|order| - 1], js, tabSide);
    }
  }

  /** Over a duplicate-free order that holds every joint's member, the
      per-member counts add up to the number of non-inline joints. */
  lemma {:induction false} SumCountsTotal(order: seq<string>, js: seq<Joint>, tabSide: bool)
    requires forall i, j :: 0 <= i < j < |order| ==> order[i] != order[j]
    requires forall j :: j in js ==> SideId(j, tabSide) in order
    ensures SumCounts(order, js, tabSide) == NonInlineCount(js)
  {
    if |js| > 0 {
      var j := js[|js| - 1];
      assert j in js;
      assert forall x :: x in js[..|js| - 1] ==> x in js;
      SumCountsTotal(order, js[..|js| - 1], tabSide);
      SumCountsStep(order, js, tabSide);
      HitOnce(order, SideId(j, tabSide));
    } else {
      SumCountsNoJoints(order, js, tabSide);
    }
  }

  lemma {:induction false} SumCountsNoJoints(order: seq<string>, js: seq<Joint>, tabSide: bool)
    requires |js| == 0
    ensures SumCounts(order, js, tabSide) == 0
  {
    if |order| > 0 {
      SumCountsNoJoints(order[..|order| - 1], js, tabSide);
    }
  }

  // ---------------------------------------------------------------------------
  // Collecting every tab and slot

  function Tagged<T>(id: string, xs: seq<T>): (r: seq<(string, T)>)
    ensures |r| == |xs| && forall i :: 0 <= i < |xs| ==> r[i] == (id, xs[i])
  {
    seq(|xs|, i requires 0 <= i < |xs| => (id, xs[i]))
  }

  lemma TaggedSnoc<T>(id: string, xs: seq<T>, t: nat)
    requires t < |xs|
    ensures Tagged(id, xs[..t + 1]) == Tagged(id, xs[..t]) + [(id, xs[t])]
  {
  }

  /** The stored tabs, member by member in dictionary order, each tagged with
      its member id. */
  function CollectTabs(reg: Registry, order: seq<string>): seq<(string, TabGeometry)>
  {
    if |order| == 0 then []
    else
      var k := order[|order| - 1];
      CollectTabs(reg, order[..|order| - 1]) + (if k in reg.entries then Tagged(k, reg.entries[k].tabs) else [])
  }

  /** A (member, tab) pair is collected exactly when the member is in the
      order and stores that tab. */
  lemma {:induction false} CollectTabsMembers(reg: Registry, order: seq<string>)
    ensures forall p :: p in CollectTabs(reg, order) <==> p.0 in order && p.0 in reg.entries && p.1 in reg.entries[p.0].tabs
  {
    if |order| > 0 {
      var k := order[|order| - 1];
      CollectTabsMembers(reg, order[..|order| - 1]);
      assert order == order[..|order| - 1] + [k];
    }
  }

  /** The stored slots, likewise. */
  function CollectSlots(reg: Registry, order: seq<string>): seq<(string, SlotGeometry)>
  {
    if |order| == 0 then []
    else
      var k := order[|order| - 1];
      CollectSlots(reg, order[..|order| - 1]) + (if k in reg.entries then Tagged(k, reg.entries[k].slots) else [])
  }

  /** A (member, slot) pair is collected exactly when the member is in the
      order and stores that slot. */
  lemma {:induction false} CollectSlotsMembers(reg: Registry, order: seq<string>)
    ensures forall p :: p in CollectSlots(reg, order) <==> p.0 in order && p.0 in reg.entries && p.1 in reg.entries[p.0].slots
  {
    if |order| > 0 {
      var k := order[|order| - 1];
      CollectSlotsMembers(reg, order[..|order| - 1]);
      assert order == order[..|order| - 1] + [k];
    }
  }

  /** When every key holds exactly its joints' tabs and slots, the collected
      lists are as long as the per-member counts add up to. */
  lemma {:induction false} CollectedLengths(reg: Registry, order: seq<string>, js: seq<Joint>,
                                            g: TabSlotGenerator, sqrt: real -> real)
    requires forall k :: k in order ==>
      k in reg.entries && reg.entries[k].tabs == TabsFor(k, js, g, sqrt) && reg.entries[k].slots == SlotsFor(k, js, g, sqrt)
    ensures |CollectTabs(reg, order)| == SumCounts(order, js, true)
    ensures |CollectSlots(reg, order)| == SumCounts(order, js, false)
  {
    if |order| > 0 {
      var k := order[|order| - 1];
      assert forall x :: x in order[..|order| - 1] ==> x in order;
      CollectedLengths(reg, order[..|order| - 1], js, g, sqrt);
      FeatureCounts(k, js, g, sqrt);
    }
  }

  /** On a first run every non-inline joint contributes exactly one collected
      tab and one collected slot, so both totals equal the number of non-inline
      joints. */
  lemma FirstRunTotals(fms: seq<BoxGenerator.FrameMember>, axes: seq<MemberAxis>, js: seq<Joint>,
                       g: TabSlotGenerator, sqrt: real -> real)
    requires JointsAmong(js, axes, ZipLength(|fms|, |axes|))
    ensures var r := Build(EmptyRegistry, fms, axes, js, g, sqrt);
      |CollectTabs(r, r.order)| == NonInlineCount(js) && |CollectSlots(r, r.order)| == NonInlineCount(js)
  {
    var n := ZipLength(|fms|, |axes|);
    var r := Build(EmptyRegistry, fms, axes, js, g, sqrt);
    BuildKeys(EmptyRegistry, fms, axes, js, g, sqrt);
    assert r.Valid();
    forall k | k in r.order
      ensures k in r.entries && r.entries[k].tabs == TabsFor(k, js, g, sqrt) && r.entries[k].slots == SlotsFor(k, js, g, sqrt)
    {
      var i :| 0 <= i < n && axes[i].memberId == k;
      var last := LastWithId(axes, n, i);
      BuildEntry(EmptyRegistry, fms, axes, js, g, sqrt, last);
    }
    CollectedLengths(r, r.order, js, g, sqrt);
    forall side: bool | true
      ensures SumCounts(r.order, js, side) == NonInlineCount(js)
    {
      forall j | j in js ensures SideId(j, side) in r.order {
        var i :| 0 <= i < n && i < |axes| && axes[i].memberId == SideId(j, side);
      }
      SumCountsTotal(r.order, js, side);
    }
  }

  /** A first generate collects exactly one tab and one slot per non-inline
      joint detected among the members' axes. */
  lemma GeneratedTotals(fms: seq<BoxGenerator.FrameMember>, geometry: ProfileGeometry, g: TabSlotGenerator,
                        sqrt: real -> real)
    ensures var axes := JointedAxes(fms, geometry);
      var js := PairScan.Scan(axes, JointFinder(DetectToleranceMm, sqrt));
      var r := Build(EmptyRegistry, fms, axes, js, g, sqrt);
      |CollectTabs(r, r.order)| == NonInlineCount(js) && |CollectSlots(r, r.order)| == NonInlineCount(js)
  {
    var axes := JointedAxes(fms, geometry);
    DetectedJointsAmong(axes, DetectToleranceMm, sqrt);
    FirstRunTotals(fms, axes, PairScan.Scan(axes, JointFinder(DetectToleranceMm, sqrt)), g, sqrt);
  }

  // ---------------------------------------------------------------------------
  // The generator

  /** The detector's default distance tolerance, in mm. */
  const DetectToleranceMm := 1.0

  /** Calling the tab-slot generator's constructor with one keyword argument
      besides the profile and relief type: it takes `tab_depth_mm`; any other
      keyword is rejected with a TypeError. */
  function CallTabSlotGenerator(profile: TubeProfile, keyword: string, value: real, reliefType: CornerReliefType)
    : (r: Result<TabSlotGenerator, string>)
    ensures r.Ok? <==> keyword == "tab_depth_mm"
    ensures r.Ok? ==> r.value.profile == profile && r.value.tabDepthMm == value && r.value.reliefType == reliefType
  {
    if keyword == "tab_depth_mm" then Ok(TabSlotGenerator(profile, value, reliefType))
    else Err("TypeError: unexpected keyword argument " + keyword)
  }

  /** The box constructor passes the specs' ratio under `tab_depth_ratio`, a
      keyword the tab-slot generator does not take, so construction fails for
      every specs, profile and relief type. */
  lemma ConstructorKeywordRejected(specs: BoxSpecs.BoxSpecsData, profile: TubeProfile, reliefType: CornerReliefType)
    ensures CallTabSlotGenerator(profile, "tab_depth_ratio", specs.tabDepthRatio, reliefType).Err?
  {
  }

  /** The tab-slot generator a box uses: the specs' tab depth scaled by their
      tab depth ratio, with the box's relief type. */
  function BoxTabSlotGenerator(specs: BoxSpecs.BoxSpecsData, profile: TubeProfile, reliefType: CornerReliefType)
    : TabSlotGenerator
  {
    CallTabSlotGenerator(profile, "tab_depth_mm", specs.tabDepthMm * specs.tabDepthRatio, reliefType).value
  }

  /** With a ratio of 1 the specs' tab depth is used as it is; the default
      specs give the tab-slot generator's own default of 10 mm with radius
      relief. */
  lemma BoxTabSlotGeneratorDepth(specs: BoxSpecs.BoxSpecsData, profile: TubeProfile, reliefType: CornerReliefType)
    ensures BoxTabSlotGenerator(specs, profile, reliefType).tabDepthMm == specs.tabDepthMm * specs.tabDepthRatio
    ensures specs.tabDepthRatio == 1.0 ==> BoxTabSlotGenerator(specs, profile, reliefType).tabDepthMm == specs.tabDepthMm
    ensures BoxTabSlotGenerator(BoxSpecs.DefaultSpecs, profile, Radius) == NewGenerator(profile)
  {
  }

  class JointedBoxGenerator {
    const specs: BoxSpecs.BoxSpecsData
    const profile: TubeProfile
    const reliefType: CornerReliefType
    /** The square root the joint detector uses. */
    const sqrt: real -> real
    const frameGen: BoxGenerator.BoxFrameGenerator
    const tabSlotGen: TabSlotGenerator
    const checker: Interference.InterferenceChecker

    var frameMembers: seq<BoxGenerator.FrameMember>
    var memberAxes: seq<MemberAxis>
    var joints: seq<Joint>
    var jointedMembers: Registry
    var generated: bool

    ghost predicate Valid()
      reads this
    {
      jointedMembers.Valid()
    }

    constructor(specs: BoxSpecs.BoxSpecsData, profile: TubeProfile, reliefType: CornerReliefType, sqrt: real -> real)
      ensures Valid()
      ensures this.specs == specs && this.profile == profile && this.reliefType == reliefType && this.sqrt == sqrt
      ensures fresh(frameGen) && frameGen.specs == specs && frameGen.profile == profile
      ensures tabSlotGen == BoxTabSlotGenerator(specs, profile, reliefType)
      ensures checker == Interference.DefaultChecker
      ensures frameMembers == [] && memberAxes == [] && joints == [] && jointedMembers == EmptyRegistry
      ensures !generated
    {
      this.specs := specs;
      this.profile := profile;
      this.reliefType := reliefType;
      this.sqrt := sqrt;
      frameGen := new BoxGenerator.BoxFrameGenerator(specs, profile);
      tabSlotGen := BoxTabSlotGenerator(specs, profile, reliefType);
      checker := Interference.DefaultChecker;
      frameMembers := [];
      memberAxes := [];
      joints := [];
      jointedMembers := EmptyRegistry;
      generated := false;
    }

    /** Frame members, their axes, the joints between them and the per-member
        entries with their features; afterwards the generator counts as
        generated. */
    method Generate()
      requires Valid()
      modifies this
      ensures Valid()
      ensures frameMembers == BoxGenerator.Members(frameGen.specs, frameGen.Dimensions(), frameGen.tubeW)
      ensures memberAxes == JointedAxes(frameMembers, profile.geometry)
      ensures joints == PairScan.Scan(memberAxes, JointFinder(DetectToleranceMm, sqrt))
      ensures jointedMembers == Build(old(jointedMembers), frameMembers, memberAxes, joints, tabSlotGen, sqrt)
      ensures generated
    {
      frameMembers := frameGen.GenerateMembers();
      memberAxes := CreateMemberAxes();
      joints := DetectAllJoints(memberAxes, DetectToleranceMm, sqrt);
      BuildJointedMembers();
      GenerateJointFeatures();
      generated := true;
      BuildKeys(old(jointedMembers), frameMembers, memberAxes, joints, tabSlotGen, sqrt);
    }

    /** One axis per frame member, in order. */
    method CreateMemberAxes() returns (axes: seq<MemberAxis>)
      ensures axes == JointedAxes(frameMembers, profile.geometry)
    {
      axes := [];
      for k := 0 to |frameMembers|
        invariant axes == JointedAxes(frameMembers, profile.geometry)[..k]
      {
        var fm := frameMembers[k];
        var p := fm.position;
        var length := fm.lengthMm;
        var rx, ry := fm.rotation.x, fm.rotation.y;
        var end;
        if Abs(Abs(rx) - 90.0) < 1.0 {
          end := Vec3(p.x, p.y + length, p.z);
        } else if Abs(Abs(ry) - 90.0) < 1.0 {
          end := Vec3(p.x + length, p.y, p.z);
        } else {
          end := Vec3(p.x, p.y, p.z + length);
        }
        axes := axes + [MemberAxis(BoxGenerator.GetName(fm), p, end,
                                   profile.geometry.outerWidthMm, profile.geometry.outerHeightMm)];
      }
    }

    /** A fresh entry for each (member, axis) pair, then each joint appended to
        the entries of both its members. */
    method BuildJointedMembers()
      modifies this
      ensures jointedMembers
        == AttachJoints(AddEntries(old(jointedMembers), frameMembers, memberAxes, ZipLength(|frameMembers|, |memberAxes|)), joints)
      ensures frameMembers == old(frameMembers) && memberAxes == old(memberAxes) && joints == old(joints)
      ensures generated == old(generated)
    {
      var fms, axes, js := frameMembers, memberAxes, joints;
      var n := ZipLength(|fms|, |axes|);
      for i := 0 to n
        invariant jointedMembers == AddEntries(old(jointedMembers), fms, axes, i)
        invariant frameMembers == fms && memberAxes == axes && joints == js && generated == old(generated)
      {
        var axis := axes[i];
        jointedMembers := Put(jointedMembers, axis.memberId, FreshEntry(fms[i], axis));
      }
      ghost var base := jointedMembers;
      for k := 0 to |js|
        invariant jointedMembers == AttachJoints(base, js[..k])
        invariant frameMembers == fms && memberAxes == axes && joints == js && generated == old(generated)
      {
        assert js[..k + 1][..k] == js[..k];
        var joint := js[k];
        var a := joint.memberA.memberId;
        if a in jointedMembers.entries {
          var e := jointedMembers.entries[a];
          jointedMembers := jointedMembers.(entries := jointedMembers.entries[a := e.(joints := e.joints + [joint])]);
        }
        var b := joint.memberB.memberId;
        if b in jointedMembers.entries {
          var e := jointedMembers.entries[b];
          jointedMembers := jointedMembers.(entries := jointedMembers.entries[b := e.(joints := e.joints + [joint])]);
        }
      }
      assert js[..|js|] == js;
    }

    /** For each non-inline joint, its tab to the tab member's entry and its
        slot to the slotted member's entry. */
    method GenerateJointFeatures()
      modifies this
      ensures jointedMembers == AttachFeatures(old(jointedMembers), joints, tabSlotGen, sqrt)
      ensures frameMembers == old(frameMembers) && memberAxes == old(memberAxes) && joints == old(joints)
      ensures generated == old(generated)
    {
      var js := joints;
      for k := 0 to |js|
        invariant jointedMembers == AttachFeatures(old(jointedMembers), js[..k], tabSlotGen, sqrt)
        invariant frameMembers == old(frameMembers) && memberAxes == old(memberAxes) && joints == js
        invariant generated == old(generated)
      {
        assert js[..k + 1][..k] == js[..k];
        var joint := js[k];
        if joint.jointType == Inline {
          continue;
        }
        var features := TabSlot.GenerateJointFeatures(tabSlotGen, joint, sqrt);
        var b := joint.memberB.memberId;
        if features.0.Some? && b in jointedMembers.entries {
          var e := jointedMembers.entries[b];
          jointedMembers := jointedMembers.(entries := jointedMembers.entries[b := e.(tabs := e.tabs + [features.0.value])]);
        }
        var a := joint.memberA.memberId;
        if features.1.Some? && a in jointedMembers.entries {
          var e := jointedMembers.entries[a];
          jointedMembers := jointedMembers.(entries := jointedMembers.entries[a := e.(slots := e.slots + [features.1.value])]);
        }
      }
      assert js[..|js|] == js;
    }

    /** Generates first when needed, then checks every stored tab and slot,
        tagged with its member id, in dictionary order. */
    method CheckInterference() returns (result: seq<Interference.Interference>)
      requires Valid()
      modifies this
      ensures Valid() && generated
      ensures old(generated) ==>
        frameMembers == old(frameMembers) && memberAxes == old(memberAxes) && joints == old(joints) &&
        jointedMembers == old(jointedMembers)
      ensures !old(generated) ==>
        frameMembers == BoxGenerator.Members(frameGen.specs, frameGen.Dimensions(), frameGen.tubeW) &&
        memberAxes == JointedAxes(frameMembers, profile.geometry) &&
        joints == PairScan.Scan(memberAxes, JointFinder(DetectToleranceMm, sqrt)) &&
        jointedMembers == Build(old(jointedMembers), frameMembers, memberAxes, joints, tabSlotGen, sqrt)
      ensures result == PairScan.Scan(CollectTabs(jointedMembers, jointedMembers.order), Interference.TabTabTest(checker.tolerance))
                      + PairScan.Scan(CollectSlots(jointedMembers, jointedMembers.order), Interference.SlotSlotTest(checker.minSlotWeb))
    {
      if !generated {
        Generate();
      }
      var allTabs, allSlots := CollectFeatures();
      result := Interference.CheckAll(checker, allTabs, allSlots);
    }
  
    /** Every stored tab and slot tagged with its member id, member by member
        in dictionary order. */
    method CollectFeatures() returns (allTabs: seq<(string, TabGeometry)>, allSlots: seq<(string, SlotGeometry)>)
      requires Valid()
      ensures allTabs == CollectTabs(jointedMembers, jointedMembers.order)
      ensures allSlots == CollectSlots(jointedMembers, jointedMembers.order)
    {
      allTabs := [];
      allSlots := [];
      var order := jointedMembers.order;
      for i := 0 to |order|
        invariant allTabs == CollectTabs(jointedMembers, order[..i])
        invariant allSlots == CollectSlots(jointedMembers, order[..i])
      {
        assert order[..i + 1][..i] == order[..i];
        var memberId := order[i];
        var jm := jointedMembers.entries[memberId];
        ghost var tabsBefore := allTabs;
        for t := 0 to |jm.tabs|
          invariant allTabs == tabsBefore + Tagged(memberId, jm.tabs[..t])
        {
          TaggedSnoc(memberId, jm.tabs, t);
          allTabs := allTabs + [(memberId, jm.tabs[t])];
        }
        ghost var slotsBefore := allSlots;
        for s := 0 to |jm.slots|
          invariant allSlots == slotsBefore + Tagged(memberId, jm.slots[..s])
        {
          TaggedSnoc(memberId, jm.slots, s);
          allSlots := allSlots + [(memberId, jm.slots[s])];
        }
        assert jm.tabs[..|jm.tabs|] == jm.tabs;
        assert jm.slots[..|jm.slots|] == jm.slots;
        assert allTabs == CollectTabs(jointedMembers, order[..i + 1]);
        assert allSlots == CollectSlots(jointedMembers, order[..i + 1]);
      }
      assert order[..|order|] == order;
    }
  }
}
