/** Tube cross-section profiles: geometry, fabricator tolerances, material and
    metadata, the tab/slot width arithmetic, and the dictionary form a profile is
    stored in. */
module TubeProfiles {
  import opened Wrappers
  import opened Numeric

  /** Geometry of a tube cross-section. `innerCornerRadiusMm` holds the value
      after construction, when an absent radius has already been derived. */
  datatype ProfileGeometry = ProfileGeometry(
    outerWidthMm: real,
    outerHeightMm: real,
    wallThicknessMm: real,
    cornerRadiusMm: real,
    innerCornerRadiusMm: real,
    dxfFile: Option<string>,
    orientationTopEdge: string)
  {
    function InnerWidthMm(): real
    {
      outerWidthMm - 2.0 * wallThicknessMm
    }

    function InnerHeightMm(): real
    {
      outerHeightMm - 2.0 * wallThicknessMm
    }
  }

  /** Builds a geometry the way the dataclass does: an absent inner corner radius
      becomes the outer radius less the wall, clamped at zero. */
  function NewGeometry(
    outerWidthMm: real, outerHeightMm: real, wallThicknessMm: real,
    cornerRadiusMm: real, innerCornerRadiusMm: Option<real>,
    dxfFile: Option<string>, orientationTopEdge: string): (g: ProfileGeometry)
    ensures g.outerWidthMm == outerWidthMm && g.outerHeightMm == outerHeightMm
    ensures g.wallThicknessMm == wallThicknessMm && g.cornerRadiusMm == cornerRadiusMm
    ensures g.dxfFile == dxfFile && g.orientationTopEdge == orientationTopEdge
    ensures innerCornerRadiusMm.Some? ==> g.innerCornerRadiusMm == innerCornerRadiusMm.value
    ensures innerCornerRadiusMm.None? ==>
      0.0 <= g.innerCornerRadiusMm && cornerRadiusMm - wallThicknessMm <= g.innerCornerRadiusMm &&
      (g.innerCornerRadiusMm == 0.0 || g.innerCornerRadiusMm == cornerRadiusMm - wallThicknessMm)
  {
    var inner := match innerCornerRadiusMm
      case Some(r) => r
      case None => Max(0.0, cornerRadiusMm - wallThicknessMm);
    ProfileGeometry(outerWidthMm, outerHeightMm, wallThicknessMm, cornerRadiusMm, inner,
                    dxfFile, orientationTopEdge)
  }

  /** Fabricator tolerances, all in mm. */
  datatype ProfileTolerances = ProfileTolerances(
    slotClearanceMm: real,
    tabUndersizeMm: real,
    kerfCompensationMm: real,
    cornerReliefRadiusMm: real,
    finishAllowanceMm: real)

  const DefaultTolerances := ProfileTolerances(0.10, 0.05, 0.15, 1.5, 0.0)

  predicate NonNegativeTolerances(t: ProfileTolerances)
  {
    0.0 <= t.slotClearanceMm && 0.0 <= t.tabUndersizeMm && 0.0 <= t.kerfCompensationMm
  }

  /** Why a profile operation fails. `SlotWidthNeedsWall` is the error the
      tolerance record's slot-width property always raises; the others are the
      errors of building a profile from a dictionary. */
  datatype ProfileError =
    | SlotWidthNeedsWall
    | BadArguments(section: string)
    | NotAMapping(section: string)
    | WrongType(key: string)

  /** The tolerance record cannot compute a slot width on its own. */
  function SlotWidthProperty(t: ProfileTolerances): (r: Result<real, ProfileError>)
    ensures r == Err(SlotWidthNeedsWall)
  {
    Err(SlotWidthNeedsWall)
  }

  /** Total gap between a tab and its slot: clearance, undersize and a kerf on
      each side. */
  function TotalClearance(t: ProfileTolerances): (c: real)
    ensures NonNegativeTolerances(t) ==> 0.0 <= c
  {
    t.slotClearanceMm + t.tabUndersizeMm + 2.0 * t.kerfCompensationMm
  }

  datatype ProfileMaterial = ProfileMaterial(grade: string, densityKgM3: real)

  const DefaultMaterial := ProfileMaterial("A36", 7850.0)

  datatype ProfileMetadata = ProfileMetadata(
    manufacturer: string, cuttingProcess: string, verifiedDate: string, notes: string)

  const DefaultMetadata := ProfileMetadata("", "", "", "")

  datatype TubeProfile = TubeProfile(
    name: string,
    description: string,
    geometry: ProfileGeometry,
    tolerances: ProfileTolerances,
    material: ProfileMaterial,
    metadata: ProfileMetadata)

  /** The geometry a profile gets when none is given: 2" square, 1/8" wall. */
  const DefaultGeometry := NewGeometry(50.8, 50.8, 3.175, 0.0, None, None, "Y+")

  /** The wall a width is computed for: the override, unless it is absent or
      zero (Python's `or`), then the profile's own wall. */
  function MatingWall(p: TubeProfile, wallOverride: Option<real>): (w: real)
    ensures (wallOverride.None? || wallOverride.value == 0.0) ==> w == p.geometry.wallThicknessMm
    ensures (wallOverride.Some? && wallOverride.value != 0.0) ==> w == wallOverride.value
  {
    if wallOverride.Some? && wallOverride.value != 0.0 then wallOverride.value
    else p.geometry.wallThicknessMm
  }

  /** Width of a slot cut into a member: never narrower than the wall it takes. */
  function CalcSlotWidth(p: TubeProfile, wallOverride: Option<real>): (w: real)
    ensures NonNegativeTolerances(p.tolerances) ==> MatingWall(p, wallOverride) <= w
  {
    MatingWall(p, wallOverride) + p.tolerances.slotClearanceMm + p.tolerances.kerfCompensationMm
  }

  /** Width of a tab: never wider than the wall it is cut from. */
  function CalcTabWidth(p: TubeProfile, wallOverride: Option<real>): (w: real)
    ensures NonNegativeTolerances(p.tolerances) ==> w <= MatingWall(p, wallOverride)
  {
    MatingWall(p, wallOverride) - p.tolerances.tabUndersizeMm - p.tolerances.kerfCompensationMm
  }

  /** The gap between this profile's slot and tab widths. */
  function CalcFitClearance(p: TubeProfile): (c: real)
    ensures c == TotalClearance(p.tolerances)
  {
    CalcSlotWidth(p, None) - CalcTabWidth(p, None)
  }

  /** For any wall, the slot is wider than the tab by exactly the total clearance. */
  lemma FitClearanceForAnyWall(p: TubeProfile, wallOverride: Option<real>)
    ensures CalcSlotWidth(p, wallOverride) - CalcTabWidth(p, wallOverride) == TotalClearance(p.tolerances)
    ensures NonNegativeTolerances(p.tolerances) ==> CalcTabWidth(p, wallOverride) <= CalcSlotWidth(p, wallOverride)
  {
  }

  /** A zero override is ignored just like an absent one. */
  lemma ZeroOverrideFallsBack(p: TubeProfile)
    ensures CalcSlotWidth(p, Some(0.0)) == CalcSlotWidth(p, None)
    ensures CalcTabWidth(p, Some(0.0)) == CalcTabWidth(p, None)
  {
  }

  /** Tab depth as a fraction of the mating member's depth (default ratio 0.6). */
  function CalcTabDepth(matingDepthMm: real, ratio: real): (d: real)
    ensures 0.0 <= matingDepthMm && 0.0 <= ratio <= 1.0 ==> 0.0 <= d <= matingDepthMm
  {
    matingDepthMm * ratio
  }

  const DefaultTabDepthRatio := 0.6

  /** The inner cross-section is positive exactly when the wall is less than half
      of each outer dimension. */
  lemma InnerPositiveIff(g: ProfileGeometry)
    ensures 0.0 < g.InnerWidthMm() <==> 2.0 * g.wallThicknessMm < g.outerWidthMm
    ensures 0.0 < g.InnerHeightMm() <==> 2.0 * g.wallThicknessMm < g.outerHeightMm
  {
  }

  // ---------------------------------------------------------------------------
  // Dictionary form

  /** A JSON-like value: the dictionaries a profile is written to and read from. */
  datatype Value =
    | VNone
    | VNum(n: real)
    | VStr(s: string)
    | VDict(fields: map<string, Value>)

  function OptStr(o: Option<string>): Value
  {
    if o.Some? then VStr(o.value) else VNone
  }

  function GeometryDict(g: ProfileGeometry): map<string, Value>
  {
    map[
      "outer_width_mm" := VNum(g.outerWidthMm),
      "outer_height_mm" := VNum(g.outerHeightMm),
      "wall_thickness_mm" := VNum(g.wallThicknessMm),
      "corner_radius_mm" := VNum(g.cornerRadiusMm),
      "inner_corner_radius_mm" := VNum(g.innerCornerRadiusMm),
      "dxf_file" := OptStr(g.dxfFile),
      "orientation_top_edge" := VStr(g.orientationTopEdge)]
  }

  function TolerancesDict(t: ProfileTolerances): map<string, Value>
  {
    map[
      "slot_clearance_mm" := VNum(t.slotClearanceMm),
      "tab_undersize_mm" := VNum(t.tabUndersizeMm),
      "kerf_compensation_mm" := VNum(t.kerfCompensationMm),
      "corner_relief_radius_mm" := VNum(t.cornerReliefRadiusMm),
      "finish_allowance_mm" := VNum(t.finishAllowanceMm)]
  }

  function MaterialDict(m: ProfileMaterial): map<string, Value>
  {
    map["grade" := VStr(m.grade), "density_kg_m3" := VNum(m.densityKgM3)]
  }

  function MetadataDict(m: ProfileMetadata): map<string, Value>
  {
    map[
      "manufacturer" := VStr(m.manufacturer),
      "cutting_process" := VStr(m.cuttingProcess),
      "verified_date" := VStr(m.verifiedDate),
      "notes" := VStr(m.notes)]
  }

  /** The dictionary form of a profile, one entry per field. */
  function ToDict(p: TubeProfile): (d: map<string, Value>)
    ensures d.Keys == {"name", "description", "geometry", "tolerances", "material", "metadata"}
    ensures d["name"] == VStr(p.name)
  {
    map[
      "name" := VStr(p.name),
      "description" := VStr(p.description),
      "geometry" := VDict(GeometryDict(p.geometry)),
      "tolerances" := VDict(TolerancesDict(p.tolerances)),
      "material" := VDict(MaterialDict(p.material)),
      "metadata" := VDict(MetadataDict(p.metadata))]
  }

  const GeometryKeys := {"outer_width_mm", "outer_height_mm", "wall_thickness_mm",
    "corner_radius_mm", "inner_corner_radius_mm", "dxf_file", "orientation_top_edge"}
  const TolerancesKeys := {"slot_clearance_mm", "tab_undersize_mm", "kerf_compensation_mm",
    "corner_relief_radius_mm", "finish_allowance_mm"}
  const MaterialKeys := {"grade", "density_kg_m3"}
  const MetadataKeys := {"manufacturer", "cutting_process", "verified_date", "notes"}

  /** A number argument: present and numeric, or absent with a default. */
  function NumArg(m: map<string, Value>, key: string, default: Option<real>, section: string): Result<real, ProfileError>
  {
    if key in m then (if m[key].VNum? then Ok(m[key].n) else Err(WrongType(key)))
    else if default.Some? then Ok(default.value)
    else Err(BadArguments(section))
  }

  function StrArg(m: map<string, Value>, key: string, default: string): Result<string, ProfileError>
  {
    if key in m then (if m[key].VStr? then Ok(m[key].s) else Err(WrongType(key)))
    else Ok(default)
  }

  /** An argument that may be None: absent or `VNone` both give None. */
  function OptNumArg(m: map<string, Value>, key: string): Result<Option<real>, ProfileError>
  {
    if key !in m || m[key].VNone? then Ok(None)
    else if m[key].VNum? then Ok(Some(m[key].n))
    else Err(WrongType(key))
  }

  function OptStrArg(m: map<string, Value>, key: string): Result<Option<string>, ProfileError>
  {
    if key !in m || m[key].VNone? then Ok(None)
    else if m[key].VStr? then Ok(Some(m[key].s))
    else Err(WrongType(key))
  }

  /** The sub-dictionary of a section, `{}` when it is absent. */
  function Section(data: map<string, Value>, key: string): Result<map<string, Value>, ProfileError>
  {
    if key !in data then Ok(map[])
    else if data[key].VDict? then Ok(data[key].fields)
    else Err(NotAMapping(key))
  }

  /** `ProfileGeometry(**m)`: the three dimensions are required, no other key
      than the seven field names is accepted. */
  function GeometryFromKwargs(m: map<string, Value>): Result<ProfileGeometry, ProfileError>
  {
    if !(m.Keys <= GeometryKeys) then Err(BadArguments("geometry"))
    else
      var w :- NumArg(m, "outer_width_mm", None, "geometry");
      var h :- NumArg(m, "outer_height_mm", None, "geometry");
      var wall :- NumArg(m, "wall_thickness_mm", None, "geometry");
      var corner :- NumArg(m, "corner_radius_mm", Some(0.0), "geometry");
      var inner :- OptNumArg(m, "inner_corner_radius_mm");
      var dxf :- OptStrArg(m, "dxf_file");
      var top :- StrArg(m, "orientation_top_edge", "Y+");
      Ok(NewGeometry(w, h, wall, corner, inner, dxf, top))
  }

  function TolerancesFromKwargs(m: map<string, Value>): Result<ProfileTolerances, ProfileError>
  {
    if !(m.Keys <= TolerancesKeys) then Err(BadArguments("tolerances"))
    else
      var d := DefaultTolerances;
      var a :- NumArg(m, "slot_clearance_mm", Some(d.slotClearanceMm), "tolerances");
      var b :- NumArg(m, "tab_undersize_mm", Some(d.tabUndersizeMm), "tolerances");
      var c :- NumArg(m, "kerf_compensation_mm", Some(d.kerfCompensationMm), "tolerances");
      var r :- NumArg(m, "corner_relief_radius_mm", Some(d.cornerReliefRadiusMm), "tolerances");
      var f :- NumArg(m, "finish_allowance_mm", Some(d.finishAllowanceMm), "tolerances");
      Ok(ProfileTolerances(a, b, c, r, f))
  }

  function MaterialFromKwargs(m: map<string, Value>): Result<ProfileMaterial, ProfileError>
  {
    if !(m.Keys <= MaterialKeys) then Err(BadArguments("material"))
    else
      var grade :- StrArg(m, "grade", DefaultMaterial.grade);
      var density :- NumArg(m, "density_kg_m3", Some(DefaultMaterial.densityKgM3), "material");
      Ok(ProfileMaterial(grade, density))
  }

  function MetadataFromKwargs(m: map<string, Value>): Result<ProfileMetadata, ProfileError>
  {
    if !(m.Keys <= MetadataKeys) then Err(BadArguments("metadata"))
    else
      var a :- StrArg(m, "manufacturer", "");
      var b :- StrArg(m, "cutting_process", "");
      var c :- StrArg(m, "verified_date", "");
      var d :- StrArg(m, "notes", "");
      Ok(ProfileMetadata(a, b, c, d))
  }

  /** Rebuilds a profile from its dictionary form; absent entries take their
      defaults ("Unnamed", "", default records). */
  function FromDict(data: map<string, Value>): (r: Result<TubeProfile, ProfileError>)
    ensures "geometry" !in data ==> r.Err?
    ensures r.Ok? && "name" !in data ==> r.value.name == "Unnamed"
  {
    var name :- StrArg(data, "name", "Unnamed");
    var description :- StrArg(data, "description", "");
    var gm :- Section(data, "geometry");
    var geometry :- GeometryFromKwargs(gm);
    var tm :- Section(data, "tolerances");
    var tolerances :- TolerancesFromKwargs(tm);
    var mm :- Section(data, "material");
    var material :- MaterialFromKwargs(mm);
    var dm :- Section(data, "metadata");
    var metadata :- MetadataFromKwargs(dm);
    Ok(TubeProfile(name, description, geometry, tolerances, material, metadata))
  }

  lemma GeometryRoundTrip(g: ProfileGeometry)
    ensures GeometryFromKwargs(GeometryDict(g)) == Ok(g)
  {
    var m := GeometryDict(g);
    assert OptNumArg(m, "inner_corner_radius_mm") == Ok(Some(g.innerCornerRadiusMm));
    assert OptStrArg(m, "dxf_file") == Ok(g.dxfFile);
  }

  lemma TolerancesRoundTrip(t: ProfileTolerances)
    ensures TolerancesFromKwargs(TolerancesDict(t)) == Ok(t)
  {
  }

  lemma MaterialRoundTrip(m: ProfileMaterial)
    ensures MaterialFromKwargs(MaterialDict(m)) == Ok(m)
  {
  }

  lemma MetadataRoundTrip(m: ProfileMetadata)
    ensures MetadataFromKwargs(MetadataDict(m)) == Ok(m)
  {
  }

  /** Writing a profile to its dictionary form and reading it back gives the
      same profile. */
  lemma FromDictToDict(p: TubeProfile)
    ensures FromDict(ToDict(p)) == Ok(p)
  {
    GeometryRoundTrip(p.geometry);
    TolerancesRoundTrip(p.tolerances);
    MaterialRoundTrip(p.material);
    MetadataRoundTrip(p.metadata);
  }

  /** A dictionary holding only the three required dimensions gives a profile
      named "Unnamed" with the default tolerances, material and metadata. */
  lemma FromDictDefaults(w: real, h: real, wall: real)
    ensures
      var data := map["geometry" := VDict(map["outer_width_mm" := VNum(w),
        "outer_height_mm" := VNum(h), "wall_thickness_mm" := VNum(wall)])];
      FromDict(data) == Ok(TubeProfile("Unnamed", "", NewGeometry(w, h, wall, 0.0, None, None, "Y+"),
        DefaultTolerances, DefaultMaterial, DefaultMetadata))
  {
  }

  /** `create_square_tube`: a square profile from imperial size and wall.
      Without a name it is called `<size>x<size>x<wall>`; the description
      always reads `<size>"x<size>" square tube, <wall>" wall`. Numbers are
      written with `showReal`, Python's text form of a float. */
  function CreateSquareTube(sizeInch: real, wallInch: real, name: Option<string>, manufacturer: string,
                            showReal: real -> string): (p: TubeProfile)
    ensures p.geometry.outerWidthMm == p.geometry.outerHeightMm == sizeInch * 25.4
    ensures p.geometry.wallThicknessMm == wallInch * 25.4
    ensures p.geometry.cornerRadiusMm == 1.5 * p.geometry.wallThicknessMm
    ensures 0.0 <= wallInch ==> p.geometry.innerCornerRadiusMm == 0.5 * p.geometry.wallThicknessMm
    ensures p.tolerances == DefaultTolerances && p.material == DefaultMaterial
    ensures p.metadata == ProfileMetadata(manufacturer, "", "", "")
    ensures name.Some? ==> p.name == name.value
    ensures name.None? ==> p.name == showReal(sizeInch) + "x" + showReal(sizeInch) + "x" + showReal(wallInch)
    ensures p.description == showReal(sizeInch) + "\"x" + showReal(sizeInch) + "\" square tube, "
                             + showReal(wallInch) + "\" wall"
  {
    var sizeMm := sizeInch * 25.4;
    var wallMm := wallInch * 25.4;
    var cornerMm := wallMm * 1.5;
    var size := showReal(sizeInch);
    var wall := showReal(wallInch);
    var profileName := match name
      case Some(n) => n
      case None => size + "x" + size + "x" + wall;
    TubeProfile(profileName, size + "\"x" + size + "\" square tube, " + wall + "\" wall",
      NewGeometry(sizeMm, sizeMm, wallMm, cornerMm, None, None, "Y+"),
      DefaultTolerances, DefaultMaterial, ProfileMetadata(manufacturer, "", "", ""))
  }
}
