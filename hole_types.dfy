/** Fastener hole specifications: rivet, riv-nut, bolt and custom holes, and
    the lookup by type name and size. Decimal formatting and parsing of numbers
    are parameters: `showReal` renders a diameter as Python prints it,
    `parseReal` reads one (None when the text is not a number). */
module HoleTypes {
  import opened Wrappers
  import Text

  datatype HoleType = Rivet | RivNut | Bolt | Custom | Pilot | Countersink

  function HoleTypeValue(t: HoleType): string
  {
    match t
    case Rivet => "rivet"
    case RivNut => "riv_nut"
    case Bolt => "bolt"
    case Custom => "custom"
    case Pilot => "pilot"
    case Countersink => "countersink"
  }

  datatype HoleSpec = HoleSpec(
    holeType: HoleType,
    diameterMm: real,
    name: string,
    description: string,
    countersink: bool,
    countersinkDiameterMm: real,
    countersinkAngleDeg: real,
    countersinkDepthMm: real,
    counterbore: bool,
    counterboreDiameterMm: real,
    counterboreDepthMm: real)

  /** A hole spec with the default countersink angle and no counterbore; an
      empty name becomes `<type>_<diameter>mm`, so every spec is named. */
  function NewHoleSpec(t: HoleType, d: real, name: string, description: string, countersink: bool,
                       csDiameter: real, csDepth: real, showReal: real -> string): (h: HoleSpec)
    ensures h.name != ""
    ensures name != "" ==> h.name == name
    ensures h.holeType == t && h.diameterMm == d && h.countersinkAngleDeg == 82.0 && !h.counterbore
  {
    var n := if name != "" then name else HoleTypeValue(t) + "_" + showReal(d) + "mm";
    HoleSpec(t, d, n, description, countersink, csDiameter, 82.0, csDepth, false, 0.0, 0.0)
  }

  /** A rivet hole is 0.2 mm larger than the rivet body. */
  function RivetHole(rivetDiameterMm: real, showReal: real -> string): (h: HoleSpec)
    ensures h.holeType == Rivet && h.diameterMm - rivetDiameterMm == 0.2
    ensures !h.countersink && h.countersinkDiameterMm == 0.0 && h.countersinkDepthMm == 0.0
  {
    NewHoleSpec(Rivet, rivetDiameterMm + 0.2, "Rivet_" + showReal(rivetDiameterMm) + "mm",
                "Clearance hole for " + showReal(rivetDiameterMm) + "mm rivet", false, 0.0, 0.0, showReal)
  }

  /** Riv-nut installation hole diameters by thread size. */
  const RivNutSizes: map<string, real> := map[
    "M3" := 5.0, "M4" := 6.0, "M5" := 7.0, "M6" := 9.0, "M8" := 11.0, "M10" := 13.0,
    "#6-32" := 6.5, "#8-32" := 7.5, "#10-24" := 8.5, "#10-32" := 8.5,
    "1/4-20" := 9.5, "5/16-18" := 11.0, "3/8-16" := 13.0]

  /** The table's diameter for a known thread size, and the M5 size, 7 mm,
      for any other. */
  function RivNutHole(threadSize: string): (h: HoleSpec)
    ensures h.holeType == RivNut && h.name == "RivNut_" + threadSize
    ensures threadSize in RivNutSizes ==> h.diameterMm == RivNutSizes[threadSize]
    ensures threadSize !in RivNutSizes ==> h.diameterMm == RivNutSizes["M5"]
  {
    var diameter := if threadSize in RivNutSizes then RivNutSizes[threadSize] else 7.0;
    NewHoleSpec(RivNut, diameter, "RivNut_" + threadSize, "Hole for " + threadSize + " riv-nut installation",
                false, 0.0, 0.0, (x: real) => "")
  }

  /** Close-fit bolt clearance holes by nominal size. */
  const ClearanceClose: map<string, real> := map[
    "M3" := 3.2, "M4" := 4.3, "M5" := 5.3, "M6" := 6.4, "M8" := 8.4, "M10" := 10.5, "M12" := 13.0,
    "#6" := 3.6, "#8" := 4.4, "#10" := 5.0, "1/4" := 6.6, "5/16" := 8.3, "3/8" := 9.9]

  /** Normal-fit bolt clearance holes by nominal size. */
  const ClearanceNormal: map<string, real> := map[
    "M3" := 3.4, "M4" := 4.5, "M5" := 5.5, "M6" := 6.6, "M8" := 9.0, "M10" := 11.0, "M12" := 13.5,
    "#6" := 3.8, "#8" := 4.6, "#10" := 5.3, "1/4" := 7.0, "5/16" := 8.7, "3/8" := 10.3]

  /** Both tables list the same sizes, and for each the close fit is the
      smaller hole. */
  lemma CloseFitTighter()
    ensures ClearanceClose.Keys == ClearanceNormal.Keys
    ensures forall size :: size in ClearanceClose ==> 0.0 < ClearanceClose[size] < ClearanceNormal[size]
  {
  }

  /** The close table when the fit is "close", otherwise the normal table; an
      unknown size gets 5.5 mm. A countersunk hole gets a countersink twice
      the hole diameter and half of it deep; otherwise none. The description
      starts with the fit in title case, word by word. */
  function BoltHole(boltSize: string, fit: string, countersunk: bool): (h: HoleSpec)
    ensures h.holeType == Bolt && h.countersink == countersunk
    ensures var sizes := if fit == "close" then ClearanceClose else ClearanceNormal;
      h.diameterMm == if boltSize in sizes then sizes[boltSize] else 5.5
    ensures countersunk ==> h.countersinkDiameterMm == 2.0 * h.diameterMm && h.countersinkDepthMm == 0.5 * h.diameterMm
    ensures !countersunk ==> h.countersinkDiameterMm == 0.0 && h.countersinkDepthMm == 0.0
    ensures h.name == "Bolt_" + boltSize + "_" + fit
    ensures h.description == Text.Title(fit) + " fit clearance for " + boltSize + " bolt"
  {
    var sizes := if fit == "close" then ClearanceClose else ClearanceNormal;
    var diameter := if boltSize in sizes then sizes[boltSize] else 5.5;
    var csDiameter := if countersunk then diameter * 2.0 else 0.0;
    var csDepth := if countersunk then diameter * 0.5 else 0.0;
    NewHoleSpec(Bolt, diameter, "Bolt_" + boltSize + "_" + fit,
                Text.Title(fit) + " fit clearance for " + boltSize + " bolt",
                countersunk, csDiameter, csDepth, (x: real) => "")
  }

  /** For a listed size, a close-fit hole is smaller than a normal-fit one
      (any fit word other than "close" counts as normal). */
  lemma CloseBoltSmaller(boltSize: string, otherFit: string, countersunk: bool)
    requires boltSize in ClearanceClose && otherFit != "close"
    ensures BoltHole(boltSize, "close", countersunk).diameterMm < BoltHole(boltSize, otherFit, countersunk).diameterMm
  {
    CloseFitTighter();
  }

  /** A custom hole: an empty name becomes `Custom_<diameter>mm`, and a zero
      countersink diameter becomes twice the hole diameter (whether or not the
      hole is countersunk). */
  function CustomHole(diameterMm: real, name: string, countersink: bool, csDiameter: real,
                      showReal: real -> string): (h: HoleSpec)
    ensures h.holeType == Custom && h.diameterMm == diameterMm && h.countersink == countersink
    ensures h.countersinkDiameterMm == if csDiameter == 0.0 then 2.0 * diameterMm else csDiameter
    ensures name != "" ==> h.name == name
  {
    NewHoleSpec(Custom, diameterMm, if name != "" then name else "Custom_" + showReal(diameterMm) + "mm", "",
                countersink, if csDiameter != 0.0 then csDiameter else diameterMm * 2.0, 0.0, showReal)
  }

  // ---------------------------------------------------------------------------
  // get_hole_spec

  /** The keyword arguments the lookup passes on, each present or absent. */
  datatype HoleKwargs = HoleKwargs(
    fit: Option<string>,
    countersunk: Option<bool>,
    diameterMm: Option<real>,
    name: Option<string>,
    countersink: Option<bool>,
    countersinkDiameterMm: Option<real>)

  const NoKwargs := HoleKwargs(None, None, None, None, None, None)

  datatype HoleError =
    | UnknownHoleType(holeType: string)    // ValueError
    | NotANumber(text: string)             // ValueError from float()
    | UnexpectedKeyword(keyword: string)   // TypeError
    | RepeatedArgument(keyword: string)    // TypeError

  function Or<T>(o: Option<T>, default: T): T
  {
    if o.Some? then o.value else default
  }

  /** `float(size) if size else default`. */
  function SizeOr(size: string, default: real, parseReal: string -> Option<real>): Result<real, HoleError>
  {
    if size == "" then Ok(default)
    else if parseReal(size).Some? then Ok(parseReal(size).value)
    else Err(NotANumber(size))
  }

  /** Passing the keywords on to the bolt constructor, which takes only `fit`
      and `countersunk`. */
  function BoltWithKwargs(boltSize: string, kw: HoleKwargs): Result<HoleSpec, HoleError>
  {
    if kw.diameterMm.Some? then Err(UnexpectedKeyword("diameter_mm"))
    else if kw.name.Some? then Err(UnexpectedKeyword("name"))
    else if kw.countersink.Some? then Err(UnexpectedKeyword("countersink"))
    else if kw.countersinkDiameterMm.Some? then Err(UnexpectedKeyword("countersink_diameter_mm"))
    else Ok(BoltHole(boltSize, Or(kw.fit, "normal"), Or(kw.countersunk, false)))
  }

  /** Passing the diameter and then the keywords on to the custom constructor,
      which takes `name`, `countersink` and `countersink_diameter_mm` besides
      the diameter; a `diameter_mm` keyword repeats the diameter. */
  function CustomWithKwargs(diameter: real, kw: HoleKwargs, showReal: real -> string): Result<HoleSpec, HoleError>
  {
    if kw.diameterMm.Some? then Err(RepeatedArgument("diameter_mm"))
    else if kw.fit.Some? then Err(UnexpectedKeyword("fit"))
    else if kw.countersunk.Some? then Err(UnexpectedKeyword("countersunk"))
    else Ok(CustomHole(diameter, Or(kw.name, ""), Or(kw.countersink, false), Or(kw.countersinkDiameterMm, 0.0), showReal))
  }

  /** The lookup as written: the custom branch reads `diameter_mm` from the
      keywords but leaves it among them when calling the constructor. */
  function GetHoleSpecAsWritten(holeType: string, size: string, kw: HoleKwargs,
                                parseReal: string -> Option<real>, showReal: real -> string)
    : (r: Result<HoleSpec, HoleError>)
    ensures holeType !in ["rivet", "riv_nut", "bolt", "custom"] <==> r == Err(UnknownHoleType(holeType))
    ensures holeType == "custom" && kw.diameterMm.Some? ==> r.Err?
  {
    if holeType == "rivet" then
      var d :- SizeOr(size, 4.8, parseReal);
      Ok(RivetHole(d, showReal))
    else if holeType == "riv_nut" then Ok(RivNutHole(if size != "" then size else "M5"))
    else if holeType == "bolt" then BoltWithKwargs(if size != "" then size else "M5", kw)
    else if holeType == "custom" then
      var fallback :- SizeOr(size, 5.0, parseReal);
      CustomWithKwargs(Or(kw.diameterMm, fallback), kw, showReal)
    else Err(UnknownHoleType(holeType))
  }

  /** The documented call `get_hole_spec("custom", diameter_mm=8.0)` fails
      with a repeated-argument error as written. */
  lemma CustomDiameterKeywordRejected(parseReal: string -> Option<real>, showReal: real -> string)
    ensures GetHoleSpecAsWritten("custom", "", NoKwargs.(diameterMm := Some(8.0)), parseReal, showReal)
         == Err(RepeatedArgument("diameter_mm"))
  {
  }

  /** The lookup by type name: a rivet (4.8 mm by default), a riv-nut or bolt
      (M5 by default), or a custom hole whose diameter is the `diameter_mm`
      keyword, else the size, else 5 mm; the `diameter_mm` keyword is taken out
      before the remaining keywords go to the constructor. Any other type name
      is an error. */
  function GetHoleSpec(holeType: string, size: string, kw: HoleKwargs,
                       parseReal: string -> Option<real>, showReal: real -> string): (r: Result<HoleSpec, HoleError>)
    ensures holeType !in ["rivet", "riv_nut", "bolt", "custom"] <==> r == Err(UnknownHoleType(holeType))
    ensures holeType == "rivet" && size == "" ==> r == Ok(RivetHole(4.8, showReal))
    ensures holeType == "rivet" && size != "" ==>
      r == (if parseReal(size).Some? then Ok(RivetHole(parseReal(size).value, showReal)) else Err(NotANumber(size)))
    ensures holeType == "riv_nut" ==> r == Ok(RivNutHole(if size != "" then size else "M5"))
    ensures holeType == "bolt" && size == "" && kw == NoKwargs ==> r == Ok(BoltHole("M5", "normal", false))
    ensures (holeType == "bolt" && kw.diameterMm.None? && kw.name.None? && kw.countersink.None? &&
             kw.countersinkDiameterMm.None?) ==>
              r == Ok(BoltHole(if size != "" then size else "M5", Or(kw.fit, "normal"), Or(kw.countersunk, false)))
    ensures (holeType == "bolt" && (kw.diameterMm.Some? || kw.name.Some? || kw.countersink.Some? ||
             kw.countersinkDiameterMm.Some?)) ==> r.Err? && r.error.UnexpectedKeyword?
    ensures holeType == "custom" && size != "" && parseReal(size).None? ==> r == Err(NotANumber(size))
    ensures (holeType == "custom" && (size == "" || parseReal(size).Some?) &&
             (kw.fit.Some? || kw.countersunk.Some?)) ==> r.Err? && r.error.UnexpectedKeyword?
    ensures (holeType == "custom" && kw.diameterMm.None? && (size == "" || parseReal(size).Some?) &&
             kw.fit.None? && kw.countersunk.None?) ==>
              r.Ok? && r.value.holeType == Custom &&
              r.value.diameterMm == (if size == "" then 5.0 else parseReal(size).value)
    ensures holeType == "custom" && kw.diameterMm.Some? && (size == "" || parseReal(size).Some?) &&
            kw.fit.None? && kw.countersunk.None? ==>
              r.Ok? && r.value.holeType == Custom && r.value.diameterMm == kw.diameterMm.value
  {
    if holeType == "custom" then
      var fallback :- SizeOr(size, 5.0, parseReal);
      CustomWithKwargs(Or(kw.diameterMm, fallback), kw.(diameterMm := None), showReal)
    else GetHoleSpecAsWritten(holeType, size, kw, parseReal, showReal)
  }

  /** The documented rivet and bolt calls: a 4.8 mm rivet, and an M6 bolt
      at the normal fit, countersunk. */
  lemma DocumentedRivetAndBolt(parseReal: string -> Option<real>, showReal: real -> string)
    requires parseReal("4.8") == Some(4.8)
    ensures GetHoleSpec("rivet", "4.8", NoKwargs, parseReal, showReal) == Ok(RivetHole(4.8, showReal))
    ensures var r := GetHoleSpec("bolt", "M6", NoKwargs.(countersunk := Some(true)), parseReal, showReal);
      r.Ok? && r.value.diameterMm == 6.6 && r.value.countersink && r.value.countersinkDiameterMm == 13.2
  {
  }

  /** The documented custom call yields an 8 mm custom hole. */
  lemma CustomDiameterKeyword(parseReal: string -> Option<real>, showReal: real -> string)
    ensures var r := GetHoleSpec("custom", "", NoKwargs.(diameterMm := Some(8.0)), parseReal, showReal);
      r.Ok? && r.value.holeType == Custom && r.value.diameterMm == 8.0 && r.value.countersinkDiameterMm == 16.0
  {
  }
}
