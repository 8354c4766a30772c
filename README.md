# steelbox joinery — a Dafny model

This project models the computational core of steelbox, a FreeCAD workbench. It builds rectangular-tube frames for steel boxes and cabinets and cuts tab-and-slot joints into them. The model covers every step that does not need the CAD kernel:

- **Tube profiles** (`TubeProfiles`):
  - inner dimensions and the inner corner radius;
  - fabricator tolerances and the slot width, tab width, fit clearance and tab depth derived from them;
  - the dictionary round trip and the square-tube factory.
- **Box specs and frame layout** (`BoxSpecs`, `BoxGenerator`):
  - the conversion from inches;
  - support counts from on-centre spacing;
  - exterior, interior and centreline effective dimensions;
  - the start, length, rotation, type and index of every frame member, built by a stateful generator object.
- **Joint detection** (`JointDetector`):
  - member axes;
  - the closest approach of two centre-lines;
  - margin and distance rejection;
  - classification into T-joint, corner, cross, inline and skew;
  - the rule that chooses the tab bearer;
  - the pairwise scan over a frame and the conversion of frame members into axes.
- **Tab and slot geometry** (`TabSlot`): widths, depths, base points, unit directions and signed axis normals for the two features of a joint.
- **Corner relief** (`CornerRelief`): the relief type recommended for a cutting process, and the dogbone and T-bone arithmetic.
- **Interference** (`Interference`, with the generic pair scan `PairScan`):
  - bounding boxes of tabs and slots;
  - tab–tab and slot–slot clashes;
  - end-cap notch sizing;
  - cap-tab conflicts.
- **End caps** (`EndCaps`):
  - the cap specification;
  - tab offsets along an edge;
  - cap names;
  - which member ends of a frame receive a cap.
- **The jointed-box orchestrator** (`JointedBox`): a class that turns frame members into axes, detects joints and fills a per-member record of joints, tabs and slots. It generates lazily before an interference check.
- **Holes** (`HoleTypes`, `HolePatterns`):
  - rivet, riv-nut, bolt and custom clearance holes and their tables;
  - hole patterns by count, by spacing, single and grid, held in a pattern object whose position list is rebuilt.
- **DXF cross-sections** (`DxfImport`):
  - entity bounds over an abstract Line/Arc/Circle/Other entity type;
  - the outer/inner split;
  - measurement of width, height and corner radius;
  - unit scaling and `$INSUNITS` interpretation.
- **Profile manager** (`ProfileManagers`): the profile cache over a store of two directories, each modelled as a map from file name to stored document, with list, get, save, delete, copy and clear.

Numbers are Dafny `real`, not IEEE doubles. Python's `int()` is truncation toward zero (`Numeric.Trunc`). The square root is a parameter `sqrt: real -> real`. Where a result depends on it, the lemmas assume it is a true square root (`Numeric.IsSqrt`). Turning a number into text (`showReal`) and parsing text into a number (`parseReal`) are parameters too. Python exceptions become `Result` errors and `None` becomes `Option`. Shared helpers live in `Wrappers`, `Numeric` and `Text`.

`BoxGenerator.generate_members` in core/box_generator.py emits 4 corner verticals, 4 horizontal rails and 4 depth rails. That makes 12 fixed members, although the comment at core/box_generator.py:149 speaks of 8 rails. The model follows the code: `BoxGenerator.MemberCount` states 12 plus the supports and cross members, plus 4 feet when the foot height is positive.

## Model

| member | source | states |
|---|---|---|
| TubeProfiles.NewGeometry | profiles/tube_profile.py:15-28 | every given field is kept; an absent inner corner radius becomes the outer radius less the wall, clamped at zero (so it is non-negative and at least radius − wall) |
| TubeProfiles.InnerPositiveIff | profiles/tube_profile.py:30-36 | the inner width (height) is positive exactly when twice the wall is less than the outer width (height) |
| TubeProfiles.SlotWidthProperty | profiles/tube_profile.py:53-57 | the tolerance record's own `slot_width` always fails: the slot width needs a wall |
| TubeProfiles.TotalClearance | profiles/tube_profile.py:59-64 | the total tab/slot gap (clearance + undersize + two kerfs) is non-negative when the tolerances are |
| TubeProfiles.MatingWall | profiles/tube_profile.py:109 | the wall used is the override unless the override is absent or zero (Python `or`), else the profile's own wall |
| TubeProfiles.CalcSlotWidth | profiles/tube_profile.py:101-112 | a slot is never narrower than the wall it receives, for non-negative tolerances |
| TubeProfiles.CalcTabWidth | profiles/tube_profile.py:114-125 | a tab is never wider than its wall, for non-negative tolerances |
| TubeProfiles.CalcFitClearance | profiles/tube_profile.py:127-129 | slot width less tab width is exactly the tolerance record's total clearance |
| TubeProfiles.FitClearanceForAnyWall | profiles/tube_profile.py:101-129 | for every wall override, slot − tab equals the total clearance, so the tab fits the slot |
| TubeProfiles.ZeroOverrideFallsBack | profiles/tube_profile.py:109-125 | a zero wall override gives the same widths as no override |
| TubeProfiles.CalcTabDepth | profiles/tube_profile.py:131-139 | with a ratio in [0, 1] the tab depth lies between 0 and the mating depth |
| TubeProfiles.ToDict | profiles/tube_profile.py:142-151 | the dictionary has exactly the six keys name, description, geometry, tolerances, material, metadata |
| TubeProfiles.FromDict | profiles/tube_profile.py:153-163 | a dictionary without geometry is rejected (the three dimensions are required); a missing name gives "Unnamed" |
| TubeProfiles.FromDictToDict | profiles/tube_profile.py:142-163 | reading back the dictionary form of any profile gives the same profile |
| TubeProfiles.FromDictDefaults | profiles/tube_profile.py:91-98 | a dictionary holding only the three dimensions gives "Unnamed", empty description, default tolerances, material and metadata |
| TubeProfiles.CreateSquareTube | profiles/tube_profile.py:192-225 | square outer size and wall converted at 25.4 mm/in, corner radius 1.5 × wall, inner radius 0.5 × wall, default tolerances and material, the manufacturer in the metadata; a given name is kept and a missing one becomes `<size>x<size>x<wall>`; the description always reads `<size>"x<size>" square tube, <wall>" wall` |
| BoxSpecs.FromImperial | core/box_specs.py:72-96 | each of the eight lengths is the inch argument times 25.4; every other field comes from the keyword arguments |
| BoxSpecs.ImperialDefaultsAgree | core/box_specs.py:36-48 | the imperial defaults (96 × 32 × 24 in, 1 in feet, 48/24/24/24 in spacing) give the millimetre field defaults |
| BoxSpecs.CalcVerticalCountFront | core/box_specs.py:98-105 | the front support count is never negative; it is positive exactly when the spacing is positive and two spacings fit in length − tube width, and then it is the number n for which n + 1 spacings fit and n + 2 do not |
| BoxSpecs.CalcVerticalCountBack | core/box_specs.py:107-113 | the same for the back supports and their spacing along the length: positive exactly when two spacings fit, and then n + 1 spacings fit and n + 2 do not |
| BoxSpecs.CalcHorizontalCountTop | core/box_specs.py:115-121 | the same for the top cross members along depth − tube width: positive exactly when two spacings fit, and then n + 1 spacings fit and n + 2 do not |
| BoxSpecs.CalcHorizontalCountBottom | core/box_specs.py:123-129 | the same for the bottom cross members along depth − tube width: positive exactly when two spacings fit, and then n + 1 spacings fit and n + 2 do not |
| BoxSpecs.SupportCount | core/box_specs.py:98-129 | the support count is never negative, is zero when the on-centre spacing is not positive, and is positive when two spacings fit in the span less one tube width |
| BoxSpecs.SupportCountFits | core/box_specs.py:98-105 | for a positive spacing there is a support exactly when two spacings fit in the span less one tube width, and with n > 0 supports n + 1 spacings fit and n + 2 do not; this fixes the count for every input |
| BoxSpecs.DefaultCounts | core/box_specs.py:98-129 | the default box with a 2 in tube gets 0 front, 2 back, 0 top and 0 bottom supports |
| BoxGenerator.GetName | core/box_generator.py:72-81 | an explicit name is returned unchanged; a generated name never contains a space |
| BoxGenerator.GeneratedName | core/box_generator.py:72-81 | an unnamed member is named by its word-by-word title-cased type, then `_` and its title-cased face when it has one, then `_` and its decimal index when the index is positive |
| BoxGenerator.EffectiveDims | core/box_generator.py:116-135 | the three dimensions grow by the same amount; exterior specs are used as given; for a non-negative tube width no dimension shrinks |
| BoxGenerator.EffectiveDimsAgree | core/box_generator.py:121-135 | interior specs read like exterior specs two tube widths larger and centreline specs like exterior specs one tube width larger, so exterior ≤ centreline ≤ interior |
| BoxGenerator.CornerVerticalLayout | core/box_generator.py:167-198 | four unrotated corner verticals numbered 1-4 span z = tw to h − tw, front face for the first two and back for the others, placed symmetrically about the middle of the length and depth |
| BoxGenerator.HorizontalRailLayout | core/box_generator.py:200-234 | four full-length rails from x = 0 along +X; a rail is a top rail iff its centre is above half a tube width, that is the 2nd and 4th when the height exceeds the tube width |
| BoxGenerator.DepthRailLayout | core/box_generator.py:236-268 | four depth rails along +Y from y = tw to d − tw, left face for the first two and right for the others |
| BoxGenerator.SupportPositions | core/box_generator.py:282-301 | the evenly spaced supports of a group lie strictly between 0 and l − tw at strictly increasing x |
| BoxGenerator.SupportLayout | core/box_generator.py:270-355 | each support and cross member is numbered from 1 at its evenly spaced x; front supports at y = tw/2, back at d − tw/2; cross members along +Y from y = tw with length d − 2tw, top ones at the top rail height |
| BoxGenerator.GroupCountIsCount | core/box_generator.py:282-285 | the "positive spacing" guard of each group never drops a positive support count |
| BoxGenerator.FeetUnderCorners | core/box_generator.py:357-384 | each of the four feet stands under its corner vertical (same x and y) and reaches from z = −foot height to z = 0 |
| BoxGenerator.MemberCount | core/box_generator.py:137-165 | the frame has 12 fixed members plus one per counted support and cross member, plus four feet exactly when the foot height is positive |
| BoxGenerator.BoxFrameGenerator.constructor | core/box_generator.py:94-114 | keeps the specs and profile, caches the tube width and height, and sets the effective dimensions |
| BoxGenerator.BoxFrameGenerator.CalcEffectiveDims | core/box_generator.py:116-135 | the effective dimensions become those of EffectiveDims |
| BoxGenerator.BoxFrameGenerator.GenCornerVerticals | core/box_generator.py:167-198 | the loop yields exactly the corner-vertical layout |
| BoxGenerator.BoxFrameGenerator.GenHorizontalRails | core/box_generator.py:200-234 | the loop yields exactly the horizontal-rail layout |
| BoxGenerator.BoxFrameGenerator.GenDepthRails | core/box_generator.py:236-268 | the loop yields exactly the depth-rail layout |
| BoxGenerator.BoxFrameGenerator.GenVerticalSupports | core/box_generator.py:270-311 | the two loops yield exactly the front then back supports |
| BoxGenerator.BoxFrameGenerator.GenCrossMembers | core/box_generator.py:313-355 | the two loops yield exactly the top then bottom cross members |
| BoxGenerator.BoxFrameGenerator.GenFeet | core/box_generator.py:357-384 | the loop yields exactly the four feet |
| BoxGenerator.BoxFrameGenerator.GenerateMembers | core/box_generator.py:137-165 | all groups in emission order, feet only for a positive foot height |
| JointDetector.CrossProduct | joinery/joint_detector.py:139-145 | the cross product is orthogonal to both of its factors |
| JointDetector.DistanceIsNorm | joinery/joint_detector.py:190-192 | the distance between the two closest points is the norm of their difference |
| JointDetector.NormSquared | joinery/joint_detector.py:153-155 | the norm is non-negative and its square is v·v |
| JointDetector.Direction | joinery/joint_detector.py:53-62 | a member shorter than 1e-6 gets the fallback direction +Z |
| JointDetector.DirectionIsUnit | joinery/joint_detector.py:53-70 | a member of length at least 1e-6 has a unit direction, and walking its length along it from the start reaches the end |
| JointDetector.DirectionAlwaysUnit | joinery/joint_detector.py:53-62 | the direction is a unit vector for every member, degenerate ones included |
| JointDetector.PointAtParam | joinery/joint_detector.py:96-102 | parameter 0 is the start and parameter 1 is the end |
| JointDetector.Midpoint | joinery/joint_detector.py:73-79 | the midpoint is the point at parameter one half |
| JointDetector.DegenerateIsVertical | joinery/joint_detector.py:81-94 | a degenerate member counts as vertical and as neither horizontal kind, for any tolerance in (0, 1] |
| JointDetector.ClosestPointsOnLines | joinery/joint_detector.py:158-194 | the returned distance is the length of the segment joining the points at the two returned parameters (see ClosestParamsSolve, ClosestPointsAreOrthogonal and ClosestDistanceNonNegative for the parameters) |
| JointDetector.ClosestParamsSolve | joinery/joint_detector.py:179-187 | away from the parallel case the two parameters solve both normal equations of the closest approach |
| JointDetector.ClosestPointsAreOrthogonal | joinery/joint_detector.py:158-194 | for non-parallel lines the segment joining the two returned points is orthogonal to both lines |
| JointDetector.ClosestParamsSwap | joinery/joint_detector.py:172-187 | swapping the lines swaps the two parameters when the lines are not parallel |
| JointDetector.ClosestDistanceNonNegative | joinery/joint_detector.py:189-194 | the returned distance is never negative |
| JointDetector.ClosestPointsSwap | joinery/joint_detector.py:158-194 | for non-parallel lines, swapping the lines swaps the parameters and keeps the distance |
| JointDetector.ClosestParamsPerpendicular | joinery/joint_detector.py:179-187 | for perpendicular unit directions the parameters are (−d, e) |
| JointDetector.ClosestParamsParallel | joinery/joint_detector.py:181-184 | for identical unit directions the parallel branch keeps t1 = 0 and projects with t2 = d |
| JointDetector.Clamp01 | joinery/joint_detector.py:246-247 | the clamped parameter lies in [0, 1] and a parameter already there is kept |
| JointDetector.Decide | joinery/joint_detector.py:235-308 | a joint is returned iff both parameters lie within their margins and the distance is within the effective tolerance; its parameters lie in [0, 1], it sits at the point of the first member at the clamped parameter, and both faces are TOP |
| JointDetector.FindIntersection | joinery/joint_detector.py:197-308 | the same decision stated on the approach of the two members: found iff both within margins and close enough; clamped parameters; the joint point on the first member; TOP faces |
| JointDetector.JointClassification | joinery/joint_detector.py:253-270 | \|d1·d2\| > 0.99 iff INLINE, within [0.01, 0.99] iff SKEW; below 0.01 it is CORNER iff both ends, T_JOINT iff exactly one end, CROSS iff neither |
| JointDetector.TabBearerRule | joinery/joint_detector.py:272-308 | the second member carries the tab iff its parameter is at an end; otherwise the first one does and the two parameters change places |
| JointDetector.CornerTabBearerIsSecond | joinery/joint_detector.py:260-282 | at a corner the first member takes the slot and the second carries the tab |
| JointDetector.AnalyzeSwap | joinery/joint_detector.py:213-253 | for non-parallel members, swapping the arguments swaps the parameters and margins and keeps distance and \|d1·d2\| |
| JointDetector.FindIntersectionSwap | joinery/joint_detector.py:197-308 | for non-parallel members, whether a joint is found and its type do not depend on argument order, and a T-joint keeps its tab-bearer |
| JointDetector.PerpendicularJoined | joinery/joint_detector.py:228-243 | two perpendicular members whose centre-lines meet are joined iff the meeting point lies on each member extended by half its width plus the tolerance |
| JointDetector.PerpendicularJoint | joinery/joint_detector.py:245-308 | when the meeting point lies on both segments the joint is classified by where it lies, sits at the meeting point, and the tab-bearer follows the end rule |
| JointDetector.FrameCorner | joinery/joint_detector.py:197-308 | a member ending where a perpendicular member starts gives a CORNER at that point with parameters (1, 0), the second member carrying the tab |
| JointDetector.MidSpanCross | joinery/joint_detector.py:197-308 | a 1000 member crossed at its middle by a 550 member starting 50 before it is a CROSS with the first member as tab-bearer and parameters (1/11, 1/2) |
| JointDetector.InlineAnalyze | joinery/joint_detector.py:181-184 | a member continuing another along the same line is measured back to the first one's start: parameters (0, −q/lb), distance 0, \|d1·d2\| = 1 |
| JointDetector.InlineOrderMatters | joinery/joint_detector.py:181-184 | for collinear members argument order matters: the continuing member is not found from the first but the first is found, INLINE, from it |
| JointDetector.ScanJoints | joinery/joint_detector.py:311-334 | the scanned joints are exactly those found for some pair p < q, at most one per pair |
| JointDetector.DetectAllJoints | joinery/joint_detector.py:311-334 | the loop over every pair i < j returns the pair scan: exactly the joints found for some pair, at most n(n−1)/2 of them |
| JointDetector.FrameAxisUnit | joinery/joint_detector.py:355-367 | the axis a rotation selects is a unit vector |
| JointDetector.FrameEnd | joinery/joint_detector.py:350-367 | the end point is the position moved by the member length along the selected axis |
| JointDetector.AxisOfLength | joinery/joint_detector.py:349-379 | a converted axis starts at the member's position, has the member's length and runs along the selected axis |
| JointDetector.DepthRailReadAsVertical | joinery/joint_detector.py:359 | depth rails laid out with rotation (−90, 0, 0) are converted to axes along +Z, not +Y |
| JointDetector.MembersFromFrameMembers | joinery/joint_detector.py:337-381 | one axis per frame member, in order, named by the member's name, starting at its position, with the 50.8 mm square tube size |
| TabSlot.SignedAxisUnit | joinery/tab_slot.py:179-185 | every face normal the generator picks is a unit vector |
| TabSlot.SignedAxesOrthogonal | joinery/tab_slot.py:253-278 | signed unit vectors on different axes are orthogonal, so the slot's direction and length axis are square |
| TabSlot.NewGenerator | joinery/tab_slot.py:88-114 | the defaults are a 10 mm tab depth and radius relief, with the profile kept |
| TabSlot.CalcTabGeometry | joinery/tab_slot.py:116-205 | the tab takes the profile's tab width, the wall as thickness, the generator's depth, the relief radius only for radius relief, and a face normal chosen on the axis the member and extension select, positive exactly for the top face |
| TabSlot.TabDirection | joinery/tab_slot.py:154-164 | the tab extends along a unit vector which, when the slot centre is more than 1e-6 away, leads from the tab base to the slot centre, and otherwise is the slot member's direction |
| TabSlot.TabOnFlatFace | joinery/tab_slot.py:166-195 | the tab normal is a signed unit axis, positive iff the face is TOP, the tab sits half a tube height less half a wall from the base along it, and it is square to a tab member running along an axis |
| TabSlot.SlotFrameFor | joinery/tab_slot.py:253-278 | the slot's cut axis differs from its length axis, and the cut points the positive way exactly when the approach has a positive component on that axis |
| TabSlot.CalcSlotGeometry | joinery/tab_slot.py:207-297 | the slot takes the profile's slot width, twice the wall as depth, the tab depth plus twice the relief radius as length, and the generator's relief |
| TabSlot.SlotOpening | joinery/tab_slot.py:280-286 | the slot opening lies half a tube height from the joint point along the cut direction |
| TabSlot.SlotAxesOrthogonal | joinery/tab_slot.py:253-278 | the cut direction and the length axis are orthogonal unit vectors |
| TabSlot.SlotFacesTab | joinery/tab_slot.py:239-278 | the cut never points away from the approaching tab, and is square to the approach exactly when the approach has no component on the cut axis |
| TabSlot.SlotAcrossMember | joinery/tab_slot.py:253-278 | for a slot member along an axis, both the cut direction and the length axis are square to the member |
| TabSlot.SlotIgnoresFace | joinery/tab_slot.py:207-211 | the slot does not depend on the face argument |
| TabSlot.TabFitsSlot | joinery/tab_slot.py:112-113 | the slot is wider than the tab by the total clearance, longer than the tab is deep by twice the relief radius, and with non-negative tolerances tab width ≤ wall ≤ slot width |
| TabSlot.GenerateJointFeatures | joinery/tab_slot.py:424-445 | an inline joint gets neither tab nor slot; every other joint gets both, on the faces the joint names |
| CornerRelief.RecommendReliefType | joinery/corner_relief.py:304-341 | the answer is radius or dogbone, and radius whenever the tab corners are rounded above 0.1 mm |
| CornerRelief.ReliefTable | joinery/corner_relief.py:318-341 | dogbones are chosen exactly for square-cornered tabs cut by plasma, cnc, mill or router; every other process, listed or not, gets radius relief |
| CornerRelief.ReliefIgnoresCase | joinery/corner_relief.py:318 | the process name is compared after lower-casing, so case does not change the answer |
| CornerRelief.DogboneCentres | joinery/corner_relief.py:60-69 | four centres, each at offsets of magnitude half-width − r and half-length − r |
| CornerRelief.DogboneCentresSymmetric | joinery/corner_relief.py:63-78 | the centres are the four sign combinations of one point, and for r no larger than half the width and length each circle reaches both sides of its corner |
| CornerRelief.TBoneExtensions | joinery/corner_relief.py:115-140 | two boxes, each width + 2r across the slot, 2r along it and twice the slot depth deep |
| CornerRelief.TBoneCentred | joinery/corner_relief.py:124-140 | each box is centred on one end of the slot and on its centre-line, overhangs each long side by r, and spans −depth to +depth |
| Interference.BoundingBox.Intersects | joinery/interference.py:53-62 | the boxes clash exactly when, on every axis, each box's maximum reaches the other's minimum less the tolerance and its minimum stays below the other's maximum plus it |
| Interference.IntersectsSymmetricMonotone | joinery/interference.py:53-62 | the overlap test is symmetric, and a larger tolerance never turns a clash into none |
| Interference.IntersectsItself | joinery/interference.py:53-62 | a well-formed box clashes with itself at any non-negative tolerance |
| Interference.FromTab | joinery/interference.py:64-88 | on every axis the box, less half the tab width (x, y) or half the thickness (z) at each end, is the smallest interval holding the tab's position and the end of its swept segment; its extents are the segment's span plus the width or thickness, and it is well formed for non-negative sizes |
| Interference.FromSlot | joinery/interference.py:90-114 | on every axis the box, less the larger of half the slot width and half its length at each end, is the smallest interval holding the slot's position and the end of its swept segment |
| Interference.CheckTabTabInterference | joinery/interference.py:117-155 | the result is the pair scan: one TAB_TAB entry for exactly each pair i < j whose tab boxes meet at the tolerance |
| Interference.DuplicateTabsReported | joinery/interference.py:133-139 | two equal tabs at different list positions are always reported at a non-negative tolerance |
| Interference.CheckSlotSlotInterference | joinery/interference.py:158-195 | the result is the pair scan: one SLOT_SLOT entry for exactly each pair i < j whose slot boxes meet at tolerance −min_web |
| Interference.SlotTestNeedsOverlap | joinery/interference.py:180 | with tolerance −w two boxes are flagged iff each reaches w into the other on every axis, so boxes with a gap are never flagged when w ≥ 0 |
| Interference.NotchPositions | joinery/interference.py:271-284 | one notch per tab, in order, centred on the tab's x and y, wider by twice the clearance and deeper by the clearance |
| Interference.CalcNotchPositions | joinery/interference.py:251-284 | the loop returns exactly the notch list above; the tube size is not used |
| Interference.CapConflictsSubsequence | joinery/interference.py:220-248 | the conflicts are exactly the cap positions that clash with some member tab, each once, and none without member tabs |
| Interference.FindCapTabConflicts | joinery/interference.py:198-248 | the nested loop with its break records each cap position at its first clash, giving the conflict list above |
| Interference.CheckAll | joinery/interference.py:307-330 | the tab-tab results with the checker's tolerance, then the slot-slot results with its minimum web; nothing of another kind |
| EndCaps.GetName | core/end_cap.py:88-93 | the name ends in `_Start` exactly for the start end and in `_End` otherwise; with an id it starts `Cap_<id>`, without one it is `EndCap_Start` or `EndCap_End` |
| EndCaps.GetNameInjective | core/end_cap.py:88-93 | caps of members with ids share a name only if they share the id and the end label |
| EndCaps.CreateCapSpec | core/end_cap.py:130-169 | tab depth is wall × ratio × 10, tab width 40% of the smaller tube side, fit clearance the profile's slot clearance, the tube sizes and settings are copied, and there is one notch (1 mm clearance) per member tab, none without tabs |
| EndCaps.SingleTabCentred | core/end_cap.py:380-384 | the single-tab special case gives the same centred offset as the even-spacing formula |
| EndCaps.TabOffsetsIncrease | core/end_cap.py:373-384 | on an edge of positive length the offsets increase strictly with the index |
| EndCaps.TabOffsetsSymmetric | core/end_cap.py:373-384 | tab i and tab total − 1 − i sit symmetrically about the edge centre |
| EndCaps.CalcTabOffset | core/end_cap.py:373-384 | a single tab sits at the edge centre, and on an edge of positive length every tab centre lies strictly inside the edge (see TabOffsetsIncrease and TabOffsetsSymmetric for order and symmetry) |
| EndCaps.JointedEnds | core/end_cap.py:426-430 | the jointed ends are exactly the end of every joint's slotted member and the start of every joint's tab member |
| EndCaps.FrameCapsKeys | core/end_cap.py:432-454 | a cap is stored under `<id>_<end>` exactly for the member ends that no joint takes |
| EndCaps.FrameCapsValues | core/end_cap.py:436-452 | each cap carries the shared default spec, its member's id and its end, under the key `<id>_<end>`, on an end no joint takes |
| EndCaps.GenerateEndCapsForFrame | core/end_cap.py:406-454 | the two loops build the jointed-end set and then visit every member, giving exactly the cap map above |
| JointedBox.JointedAxis | core/jointed_box.py:151-160 | a rotation within 1° of ±90 about X selects +Y; failing that, one within 1° of ±90 about Y selects +X; any other selects +Z |
| JointedBox.JointedAxisUnit | core/jointed_box.py:151-160 | the axis a rotation selects is a unit vector |
| JointedBox.JointedAxisSignless | core/jointed_box.py:153-156 | the X and Y rotations count by magnitude, so ±90 give the same axis, and for non-negative rotations the axis agrees with the detector's conversion |
| JointedBox.DepthRailAlongY | core/jointed_box.py:151-160 | depth rails and the other members rotated −90 around X run along +Y, members rotated +90 around Y along +X, and unrotated ones along +Z |
| JointedBox.JointedEnd | core/jointed_box.py:147-160 | the end point is the member's position moved by its length along the selected axis |
| JointedBox.JointedAxisOfLength | core/jointed_box.py:162-168 | the axis starts at the member's position, has its length, runs along the selected axis and has the profile's outer width and height |
| JointedBox.Put | core/jointed_box.py:176 | a dictionary store keeps the keys distinct and in insertion order and maps the key to the new entry |
| JointedBox.AddEntriesOrder | core/jointed_box.py:175-179 | storing the fresh entries keeps the existing keys first and in order, new keys going to the end |
| JointedBox.AddEntriesKeys | core/jointed_box.py:175-179 | afterwards the keys are the old ones and the ids of the zipped axes |
| JointedBox.AddEntriesKeeps | core/jointed_box.py:175-179 | a key that is no axis id keeps its entry |
| JointedBox.AddEntriesFresh | core/jointed_box.py:175-179 | each axis id holds a fresh entry for the last (member, axis) pair with that id |
| JointedBox.AttachJointsResult | core/jointed_box.py:181-189 | attaching joints keeps the keys and their order and appends to each entry exactly the joints naming it, a joint twice when it names the member on both sides |
| JointedBox.FeatureStepResult | core/jointed_box.py:193-204 | one joint appends its tab to the tab member's entry and its slot to the slotted member's entry, nothing for an inline joint, and keeps the keys |
| JointedBox.AttachFeaturesKeys | core/jointed_box.py:191-204 | generating features keeps the keys and their order |
| JointedBox.AttachFeaturesEntry | core/jointed_box.py:191-204 | each entry gets exactly the tabs of the non-inline joints it carries and the slots of those it receives |
| JointedBox.BuildEntry | core/jointed_box.py:119-140 | after a run, each member's entry (the last with its id) holds the member, its axis, the joints naming it and the tabs and slots of its non-inline joints |
| JointedBox.BuildKeys | core/jointed_box.py:119-140 | a run keeps old keys in order, adds new ones at the end, and its keys are the old ones and the axes' ids |
| JointedBox.BuildKeeps | core/jointed_box.py:172-204 | a stale key that no axis has keeps its entry, with the joints and features naming it appended |
| JointedBox.BuildIdempotent | core/jointed_box.py:119-140 | running generate a second time on the same members and joints leaves the dictionary as the first run left it |
| JointedBox.DetectedJointsAmong | core/jointed_box.py:131-132 | every detected joint names members among the scanned axes |
| JointedBox.FeatureCounts | core/jointed_box.py:191-204 | a member gets one tab per non-inline joint it carries and one slot per non-inline joint it receives |
| JointedBox.SumCountsTotal | core/jointed_box.py:191-204 | over duplicate-free keys that hold every joint's members, the per-member counts add up to the number of non-inline joints |
| JointedBox.CollectTabsMembers | core/jointed_box.py:220-222 | a (member, tab) pair is collected exactly when the member is a key and stores that tab |
| JointedBox.CollectSlotsMembers | core/jointed_box.py:220-224 | a (member, slot) pair is collected exactly when the member is a key and stores that slot |
| JointedBox.CollectedLengths | core/jointed_box.py:216-224 | the collected lists are as long as the members' tab and slot counts add up to |
| JointedBox.FirstRunTotals | core/jointed_box.py:119-140 | on a first run, one tab and one slot are collected per non-inline joint |
| JointedBox.GeneratedTotals | core/jointed_box.py:119-140 | a first generate collects one tab and one slot per non-inline joint detected among the members' axes |
| JointedBox.CallTabSlotGenerator | joinery/tab_slot.py:88-93 | the tab-slot generator accepts the keyword `tab_depth_mm` and rejects any other with a TypeError |
| JointedBox.ConstructorKeywordRejected | core/jointed_box.py:103-107 | the box constructor's call with `tab_depth_ratio=` is rejected for every specs, profile and relief type |
| JointedBox.BoxTabSlotGeneratorDepth | core/jointed_box.py:103-107 | the generator the model uses has the specs' tab depth times their ratio, the plain depth for ratio 1, and the tab-slot defaults for default specs |
| JointedBox.JointedBoxGenerator.constructor | core/jointed_box.py:83-117 | the settings are kept, the sub-generators built, the data empty and nothing generated |
| JointedBox.JointedBoxGenerator.Generate | core/jointed_box.py:119-140 | frame members from the frame generator, their axes, the pair-scan joints and the rebuilt dictionary; afterwards generated |
| JointedBox.JointedBoxGenerator.CreateMemberAxes | core/jointed_box.py:142-170 | one axis per frame member, in order |
| JointedBox.JointedBoxGenerator.BuildJointedMembers | core/jointed_box.py:172-189 | fresh entries for the zipped pairs, then the joints attached; nothing else changes |
| JointedBox.JointedBoxGenerator.GenerateJointFeatures | core/jointed_box.py:191-204 | features attached for every joint; nothing else changes |
| JointedBox.JointedBoxGenerator.CheckInterference | core/jointed_box.py:206-226 | generates first only when not yet generated, then returns the checker's tab-tab and slot-slot results over the collected features |
| JointedBox.JointedBoxGenerator.CollectFeatures | core/jointed_box.py:216-224 | every stored tab and slot tagged with its member id, member by member in dictionary order |
| PairScan.ScanLength | joinery/joint_detector.py:325-334 | the pairwise scan keeps at most one result per unordered pair, n(n−1)/2 in all |
| PairScan.ScanMembers | joinery/joint_detector.py:328-332 | a result is kept exactly when the test yields it for some pair p < k |
| PairScan.ScanPairs | joinery/joint_detector.py:325-334 | the nested loop over i and j > i returns exactly the scan |
| HoleTypes.NewHoleSpec | holes/hole_types.py:22-47 | the default countersink angle is 82° with no counterbore, a given name is kept, and an empty name is filled in so every spec is named |
| HoleTypes.RivetHole | holes/hole_types.py:52-69 | a rivet hole is 0.2 mm larger than the rivet body and has no countersink |
| HoleTypes.RivNutHole | holes/hole_types.py:74-115 | a listed thread size gets the table's diameter and any other the M5 diameter; the name is `RivNut_<size>` |
| HoleTypes.CloseFitTighter | holes/hole_types.py:144-174 | both clearance tables list the same sizes, and for each the close fit is the smaller, positive hole |
| HoleTypes.BoltHole | holes/hole_types.py:119-195 | the close table for fit "close" and the normal one otherwise, 5.5 mm for unknown sizes; a countersunk hole gets a countersink twice the diameter and half of it deep, otherwise none; the name is `Bolt_<size>_<fit>` and the description starts with the fit title-cased word by word |
| HoleTypes.CloseBoltSmaller | holes/hole_types.py:176-177 | for a listed size, a close-fit bolt hole is smaller than one with any other fit word |
| HoleTypes.CustomHole | holes/hole_types.py:199-224 | the diameter and countersink flag are kept, a zero countersink diameter becomes twice the hole diameter, and a given name is kept |
| HoleTypes.GetHoleSpecAsWritten | holes/hole_types.py:228-267 | the lookup as written: an unknown type name is exactly the error case, and every custom request carrying a `diameter_mm` keyword fails, because that keyword is passed on a second time |
| HoleTypes.CustomDiameterKeywordRejected | holes/hole_types.py:248 | the documented call for an 8 mm custom hole fails as written with a repeated-argument error |
| HoleTypes.GetHoleSpec | holes/hole_types.py:228-267 | an unknown type name is exactly the error case; a rivet is 4.8 mm without a size, the parsed size with one, and a ValueError for unparsable text; a riv-nut defaults to M5; a bolt defaults to M5 with fit and countersunk taken from the keywords (normal, not countersunk), and any other keyword is a TypeError; a custom hole takes the `diameter_mm` keyword, else the size, else 5 mm, fails on an unparsable size, and rejects the bolt keywords |
| HoleTypes.DocumentedRivetAndBolt | holes/hole_types.py:245-246 | the documented calls give a 4.8 mm rivet hole and a countersunk normal-fit M6 bolt hole of 6.6 mm with a 13.2 mm countersink |
| HoleTypes.CustomDiameterKeyword | holes/hole_types.py:248 | with the keyword taken out before the constructor call, the documented custom call gives an 8 mm hole with a 16 mm countersink |
| HolePatterns.HeadingReachesEnd | holes/pattern_generator.py:116-125 | stepping the line's full length along the normalised direction from the start reaches the end point |
| HolePatterns.LineHoles | holes/pattern_generator.py:141-149 | a row holds exactly as many holes as the plan counts |
| HolePatterns.CountPlan | holes/pattern_generator.py:110-138 | a by-count row is placed exactly when the count is at least one, the line at least 0.001 mm and the usable length positive; it has count holes along the whole line |
| HolePatterns.CountSingleCentred | holes/pattern_generator.py:133-135 | a single counted hole is as far from the end margin as from the start margin |
| HolePatterns.CountSpansMargins | holes/pattern_generator.py:136-138 | two or more counted holes run from the start margin to the end margin with a positive step |
| HolePatterns.CountHolesWithinMargins | holes/pattern_generator.py:133-149 | every counted hole lies between the margins, in strictly increasing order |
| HolePatterns.SpacingPlan | holes/pattern_generator.py:151-178 | a by-spacing row is placed exactly when the spacing is positive, the line at least 0.001 mm and the usable length positive; it has int(usable / spacing) + 1 holes at the given spacing |
| HolePatterns.SpacingCentred | holes/pattern_generator.py:174-178 | a spaced row is centred: the gap before the first hole equals the gap after the last, and is less than half a spacing |
| HolePatterns.GridPlan | holes/pattern_generator.py:196-212 | the primary row is placed exactly when the line is at least 0.001 mm, with count holes (none for a negative count), even when there is no room between the margins |
| HolePatterns.GridAgreesWithCount | holes/pattern_generator.py:205-212 | wherever a counted row is placed, the grid's primary row is that row, so its holes span the margins as the counted ones do |
| HolePatterns.GridWithoutRoom | holes/pattern_generator.py:205-212 | with no room between the margins, a single grid hole sits midway between them and two or more are all stacked at the start margin |
| HolePatterns.PlanPoints | holes/pattern_generator.py:214-220 | one primary point per counted step |
| HolePatterns.SecondaryOffsets | holes/pattern_generator.py:226-230 | one secondary offset per second-direction count |
| HolePatterns.SecondarySymmetric | holes/pattern_generator.py:226-230 | the secondary offsets are symmetric about the primary point |
| HolePatterns.RowsLength | holes/pattern_generator.py:228-237 | the grid holds one row of secondary holes per primary point |
| HolePatterns.RowsAt | holes/pattern_generator.py:228-237 | hole i·m + j is the j-th secondary offset from the i-th primary point |
| HolePatterns.RowsCarry | holes/pattern_generator.py:231-237 | every grid hole carries the pattern's hole spec and normal |
| HolePatterns.GridSize | holes/pattern_generator.py:190-237 | a grid on a line of at least 0.001 mm has count × second-count holes; a shorter line has none |
| HolePatterns.PositionsCarrySpec | holes/pattern_generator.py:86-108 | every computed hole carries the pattern's hole spec and normal |
| HolePatterns.SingleAtStart | holes/pattern_generator.py:90-97 | a single-hole pattern has exactly one hole, at the start point |
| HolePatterns.PrimaryPoints | holes/pattern_generator.py:214-220 | the loop builds exactly the primary points of the plan |
| HolePatterns.HolePattern.constructor | holes/pattern_generator.py:55-84 | the pattern holds the given parameters and no positions |
| HolePatterns.HolePattern.ComputePositions | holes/pattern_generator.py:86-108 | earlier positions are discarded and replaced by the computed ones; the parameters do not change |
| HolePatterns.HolePattern.AppendRow | holes/pattern_generator.py:141-149 | appends one hole per planned offset |
| HolePatterns.HolePattern.ComputeByCount | holes/pattern_generator.py:110-149 | appends exactly the by-count row, or nothing when a guard returns early |
| HolePatterns.HolePattern.ComputeBySpacing | holes/pattern_generator.py:151-188 | appends exactly the centred by-spacing row, or nothing when a guard returns early |
| HolePatterns.HolePattern.ComputeGrid | holes/pattern_generator.py:190-237 | appends exactly the grid: for each primary point in order, its row of secondary holes |
| HolePatterns.HolePattern.AppendRows | holes/pattern_generator.py:228-237 | appends one row of secondary holes per primary point, in order |
| HolePatterns.HolePattern.AppendSecondary | holes/pattern_generator.py:229-237 | appends one hole per secondary offset around a primary point |
| HolePatterns.LinearParams | holes/pattern_generator.py:291-312 | a count gives a by-count pattern with spacing 0; a spacing alone gives a by-spacing pattern with count 0 |
| HolePatterns.CreateLinearPattern | holes/pattern_generator.py:259-315 | giving both a count and a spacing, or neither, is exactly the error case; otherwise a fresh pattern with those parameters and its positions computed |
| HolePatterns.CreateGridPattern | holes/pattern_generator.py:317-364 | a fresh grid pattern holding the given counts, spacing and direction, with its grid positions computed |
| DxfImport.EntityBounds | profiles/dxf_importer.py:34-54 | a line's box is the tightest box around its endpoints; an arc's or circle's is centred on its centre with side twice the radius; any other entity gets the zero box |
| DxfImport.MeanWithin | profiles/dxf_importer.py:153-154 | the mean of a non-empty list of values between two bounds lies between them too |
| DxfImport.ClassifyPartitions | profiles/dxf_importer.py:83-127 | every entity lands on exactly one side: outer and inner together are the input, counted with multiplicity |
| DxfImport.ClassifyKeepsOrder | profiles/dxf_importer.py:86-125 | the split keeps the input order: splitting a concatenation gives the concatenated splits on each side |
| DxfImport.OuterMembers | profiles/dxf_importer.py:86-125 | an entity is outer iff it is in the input and its own test sends it outer, and inner iff the test does not |
| DxfImport.ArcClassification | profiles/dxf_importer.py:87-98 | an arc goes outer iff its radius is at least the midpoint of the smallest and largest arc radius, so the largest arc always does |
| DxfImport.LineClassification | profiles/dxf_importer.py:101-121 | a line goes outer iff its box centre's distance from the origin is at least the midpoint of the smallest and largest such distance |
| DxfImport.CollectLineDistances | profiles/dxf_importer.py:111-116 | the loop gathers exactly the lines' centre distances, in order |
| DxfImport.ClassifyEntitiesBySize | profiles/dxf_importer.py:57-127 | the two loops return exactly the outer and inner sides of the split, and ([], []) for an empty drawing |
| DxfImport.OverallBounds | profiles/dxf_importer.py:143-147 | the overall box contains every entity's box, and each of its four sides is the matching side of some entity's box, so it is the tightest such box |
| DxfImport.ExtractGeometryFromEntities | profiles/dxf_importer.py:130-156 | all zero for no entities; otherwise the overall box's width and height, and a corner radius that is zero without arcs and with them is their mean: times the number of arcs it gives their sum, and it lies between the smallest and largest arc radius |
| DxfImport.Mean | profiles/dxf_importer.py:154 | the mean times the number of values is their sum, and it lies between the smallest and the largest value |
| DxfImport.CornerRadius | profiles/dxf_importer.py:153-154 | zero without arcs; with arcs, the mean of their radii |
| DxfImport.EqualArcsRadius | profiles/dxf_importer.py:153-154 | when every arc has the same radius, that radius is the measured corner radius |
| DxfImport.MeasuredCoversEntities | profiles/dxf_importer.py:143-150 | a measured boundary is at least as wide and high as each of its entities' boxes, and not negative |
| DxfImport.UnitScale | profiles/dxf_importer.py:208 | the scale is 25.4 exactly for "inch" and 1 for anything else |
| DxfImport.Collected | profiles/dxf_importer.py:192-195 | the collected entities are exactly the lines, arcs, circles and light polylines of the drawing |
| DxfImport.ExtractGeometryFromDxf | profiles/dxf_importer.py:159-226 | a drawing with nothing collected is exactly the error case |
| DxfImport.DxfGeometryFields | profiles/dxf_importer.py:201-226 | the outer width, height and corner radius and the inner corner radius are scaled to mm, the wall is half the scaled difference of outer and inner width, so the geometry's inner width is the measured one, and the file name is kept |
| DxfImport.UnitGuess | profiles/dxf_importer.py:310-326 | without a known $INSUNITS value the guess is "inch" iff some entity has a start, end or centre and all of them have \|x\| < 20, "mm" iff some entity has one with \|x\| ≥ 20, and "unknown" iff no entity has one |
| DxfImport.DetectDxfUnits | profiles/dxf_importer.py:289-326 | $INSUNITS 1, 4, 5 and 6 give inch, mm, cm and m; otherwise a drawing whose largest \|x\| is below 20 is in inches, any other with coordinates in mm, and one without coordinates unknown |
| ProfileManagers.Load | profiles/tube_profile.py:181-183 | an unreadable file is a parse error, and a parsed document loads exactly when its fields build a profile |
| ProfileManagers.LoadSaved | profiles/tube_profile.py:174-183 | a saved profile loads back as itself |
| ProfileManagers.Sanitise | profiles/profile_manager.py:56 | both path separators become `_` and every other character is kept in place |
| ProfileManagers.SanitiseKeepsSuffix | profiles/profile_manager.py:56-57 | sanitising neither makes nor breaks a `.json` ending |
| ProfileManagers.SafeName | profiles/profile_manager.py:56-58 | the file name ends in `.json` and has no separators; `.json` is appended exactly when the name lacks it, and the name's characters are kept with separators replaced |
| ProfileManagers.SafeNameKeepsFileNames | profiles/profile_manager.py:53-58 | a name that is already a clean `.json` file name is its own file name |
| ProfileManagers.ProfilePathOf | profiles/profile_manager.py:53-62 | the library directory exactly when the location is "library", else custom, with the safe file name |
| ProfileManagers.Stem | profiles/profile_manager.py:77-78 | the stem is the file name without `.json`, except that `.json` itself is its own stem |
| ProfileManagers.StemClash | profiles/profile_manager.py:77-85 | two different `.json` file names share a stem only when they are `.json` and `.json.json` |
| ProfileManagers.ListedNames | profiles/profile_manager.py:74-87 | the listed names are the custom stems, plus the library stems when the library is included |
| ProfileManagers.InsertName | profiles/profile_manager.py:87 | inserting into a sorted list keeps it sorted and adds exactly the new name |
| ProfileManagers.SortNames | profiles/profile_manager.py:87 | the result is sorted in code-point order and is a permutation of the input |
| ProfileManagers.LoadAndCache | profiles/profile_manager.py:106-125 | a profile that loads is returned and cached under the name; a load failure returns nothing and caches nothing |
| ProfileManagers.Lookup | profiles/profile_manager.py:89-127 | a cache hit returns the cached profile and changes nothing; otherwise, when custom holds the file, the result is that file's profile if it loads and None if not; when only the library holds it, the same for the library file; no file gives None; a found profile is cached and a miss changes nothing; the directories never change |
| ProfileManagers.LibraryFound | profiles/profile_manager.py:116-124 | an uncached name with no custom file and a loadable library file finds the library profile, whatever other names the custom directory holds |
| ProfileManagers.CustomShadowsLibrary | profiles/profile_manager.py:106-115 | once custom holds a file for an uncached name, the library does not affect the lookup, which succeeds exactly when that file loads |
| ProfileManagers.Save | profiles/profile_manager.py:129-160 | an existing file without overwrite is exactly the error case and changes nothing; otherwise the profile is written to the chosen directory, cached under its name, and the other directory is untouched |
| ProfileManagers.SavedProfileFound | profiles/profile_manager.py:129-160 | a profile saved to custom is found under its name, from the cache and also after the cache is cleared |
| ProfileManagers.Delete | profiles/profile_manager.py:162-182 | true exactly when the file existed, in which case it and the cache entry are removed; false changes nothing |
| ProfileManagers.DeletedProfileGone | profiles/profile_manager.py:162-182 | after deleting a custom profile with no library counterpart, looking it up finds nothing |
| ProfileManagers.Copy | profiles/profile_manager.py:184-203 | no library file gives None and changes nothing; otherwise the library file is copied to custom, the cache entry dropped, and the result is the fresh lookup |
| ProfileManagers.CopyShadowsLibrary | profiles/profile_manager.py:184-203 | after a copy, the custom file answers the lookup whatever the library later holds |
| ProfileManagers.ProfileManager.constructor | profiles/profile_manager.py:34-51 | the manager opens over the two directories with an empty cache |
| ProfileManagers.ProfileManager.ListProfiles | profiles/profile_manager.py:64-87 | the names are sorted and are exactly the listed stems, each once unless custom holds both `.json` and `.json.json` |
| ProfileManagers.ProfileManager.GetProfile | profiles/profile_manager.py:89-127 | the result and new state are those of the lookup |
| ProfileManagers.ProfileManager.SaveProfile | profiles/profile_manager.py:129-160 | the result and new state are those of the save |
| ProfileManagers.ProfileManager.DeleteProfile | profiles/profile_manager.py:162-182 | the result and new state are those of the delete |
| ProfileManagers.ProfileManager.CopyToCustom | profiles/profile_manager.py:184-203 | the result and new state are those of the copy |
| ProfileManagers.ProfileManager.ClearCache | profiles/profile_manager.py:236-238 | the cache is emptied and both directories are kept |

## Left out

- FreeCAD solid construction is not modelled, because it runs inside a CAD kernel the model cannot see. This covers:
  - `create_tab_shape`, `create_slot_shape`, `apply_slots_to_member` and `apply_tabs_to_member` (joinery/tab_slot.py);
  - the Part-building bodies in joinery/corner_relief.py;
  - `create_cap_shape`, `_create_rounded_box`, `_create_tabs` and `_create_notch` (core/end_cap.py);
  - `create_parts` in core/box_generator.py and core/jointed_box.py;
  - `create_jointed_box_frame`;
  - `create_hole_shape`, `apply_pattern_to_shape` and `apply_holes_to_face` (holes/pattern_generator.py);
  - profiles/sketch_generator.py.
- `generate_hole_pattern` (holes/pattern_generator.py) is not modelled. It only forwards to the pattern factories, which are modelled, and to the shape code, which is not.
- The GUI and command wiring is not part of this model. That covers CPipe.py, CFrame.py, CUtils.py, InitGui.py, steelbox_config.py, the cut list and the tooltips.
- Spreadsheet I/O for box specs is not modelled. Neither is the JSON text and file I/O of tube profiles (`to_json`, `from_json`, `save`, `load`). Only the dictionary form (`to_dict`/`from_dict`) is modelled.
- Floating point: every quantity is an exact `real`. No result claims IEEE rounding behaviour.
- The square root, float formatting and float parsing are parameters (`sqrt`, `showReal`, `parseReal`). Lemmas that need the square root assume `Numeric.IsSqrt`.
- Reading a DXF file through ezdxf is not modelled. The entities arrive as an abstract `Entity` sequence, and the `$INSUNITS` header value is passed in by the caller (0 when absent).
- `import_dxf_profile` (profiles/dxf_importer.py:243-286) is not modelled. It wraps the extraction in a TubeProfile with file-derived metadata.
- The `raw_data` debugging dictionary returned by `extract_geometry_from_dxf` is not modelled; only the geometry is.
- TubeProfiles.FromDict: a value of the wrong JSON type (a number where a name is expected, text where a dimension is expected) is rejected with `WrongType`. The source passes such values to its dataclass constructors unchecked, so it accepts them or fails only later, in `__post_init__` or in arithmetic. Through ProfileManagers.Load and ProfileManagers.Lookup, a file the source would load and cache therefore gives None and caches nothing in the model.
- DxfImport.ClassifyEntitiesBySize: the extent threshold computed at profiles/dxf_importer.py:69-80 is never used by the source, so the model does not compute it.
- DxfImport.DetectDxfUnits: an entity other than a line, arc, circle or light polyline carries only the x coordinates of the `start`, `end` and `center` attributes its kind has (an ellipse's centre, a ray's start). The caller supplies which of them an entity has; the model does not derive this from the DXF entity type.
- EndCaps.GenerateEndCapsForFrame: a cap's `position`, `normal` and `shape` fields are not modelled. The source leaves them at their defaults here, and only the shape code reads them.
- `InterferenceChecker.report` and `get_member_summary` produce formatted text and are not modelled. Nor are the resolution hints in the interference records.
- Interference: the TAB_SLOT and CAP_TAB interference kinds exist in the source's enumeration, but `check_all` never produces them. The model has the kinds but no check for them.
- `HolePatternGenerator` holds no state. Its `create_linear_pattern` and `create_grid_pattern` are modelled as module-level methods (`HolePatterns.CreateLinearPattern`, `HolePatterns.CreateGridPattern`).
- Text.Title: case mapping covers ASCII letters only; Python's `str.title` and `str.lower` also map other Unicode letters, so a bolt fit word (HoleTypes.BoltHole) or a cutting-process name (CornerRelief.RecommendReliefType) holding non-ASCII letters is cased differently. Member types and faces are fixed ASCII words, so generated member names are unaffected.
- HoleTypes.GetHoleSpec: only the keyword arguments the source's branches read are modelled (fit, countersunk, diameter, name, countersink and countersink diameter). Any other keyword is not.
- `import_from_json`, `get_all_profiles` and the module-level singleton helpers of profiles/profile_manager.py are not modelled. They combine the modelled operations with file reads and a global instance.
- The profile manager's directories are two maps from file name to stored document. Creating the directories, JSON text formatting and the message printed when a profile fails to load are not modelled. A stored document is either a parsed dictionary or unreadable.
- ProfileManagers.ProfileManager.ListProfiles: the result is proved duplicate-free only when the custom directory does not hold a pair of names that strip to the same stem. An example pair is `.json` and `.json.json`: `Path.stem` gives `.json` for both, so the source lists that name twice.
- ProfileManagers.ProfileManager.ListProfiles: the directory scan visits files in no fixed order, because `glob` makes no ordering promise. Only the sorted result is specified.
- JointedBox: the orchestrator is modelled with the generator its constructor evidently meant to build. The constructor as written raises a TypeError (see Findings).
- Degenerate members: a member shorter than 1e-6 mm gets the direction (0,0,1), as joinery/joint_detector.py:53-62 computes. Such members are not rejected.
- Corner joints: the second argument always becomes the tab bearer, as the code decides. No other tie-break is modelled.

## Findings

| source | as written | input that shows it | evidently intended | confidence | as-written member | corrected member |
|---|---|---|---|---|---|---|
| joinery/joint_detector.py:359 | `members_from_frame_members` treats a member as running along +Y only when `abs(rx - 90) < 1`, so a rotation of (−90, 0, 0) falls through to +Z | a depth rail from `BoxFrameGenerator`, whose rotation is (−90, 0, 0), becomes a vertical axis | compare `abs(abs(rx) - 90)`, as core/jointed_box.py:153 does, so depth rails run along +Y | high (not executed) | JointDetector.DepthRailReadAsVertical | JointedBox.DepthRailAlongY |
| core/jointed_box.py:103-107 | `JointedBoxGenerator.__init__` passes `tab_depth_ratio=` to `TabSlotGenerator`, whose `__init__` (joinery/tab_slot.py:88-93) takes no such keyword | any construction of `JointedBoxGenerator` raises TypeError | build the tab/slot generator with tab depth = the specs' tab depth × the ratio | high (not executed) | JointedBox.ConstructorKeywordRejected | JointedBox.BoxTabSlotGeneratorDepth |
| holes/hole_types.py:263-264 | the "custom" branch passes the diameter positionally to `CustomHole` and again as `diameter_mm` inside `**kwargs` | `get_hole_spec("custom", diameter_mm=8.0)`, the docstring's own example at holes/hole_types.py:248, raises TypeError | pass the diameter once, giving an 8.0 mm custom hole | high (not executed) | HoleTypes.CustomDiameterKeywordRejected | HoleTypes.CustomDiameterKeyword |
