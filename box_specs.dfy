/** Box specifications: overall dimensions, feet, support spacing, the
    dimension reference mode and the tab/slot, panel and hole settings, with the
    support counts derived from the on-centre spacings. */
module BoxSpecs {
  import opened Numeric

  /** How the overall dimensions are measured. */
  datatype DimensionReference = Exterior | Interior | Centerline

  /** All lengths in mm. */
  datatype BoxSpecsData = BoxSpecsData(
    lengthMm: real,
    heightMm: real,
    depthMm: real,
    footHeightMm: real,
    casterReinforcement: bool,
    verticalOcFrontMm: real,
    verticalOcBackMm: real,
    horizontalOcTopMm: real,
    horizontalOcBottomMm: real,
    dimensionReference: DimensionReference,
    tabsEnabled: bool,
    capsEnabled: bool,
    tabDepthMm: real,
    tabWidthMm: real,
    tabDepthRatio: real,
    panelThicknessSidesMm: real,
    panelThicknessTopMm: real,
    panelOffsetMm: real,
    rivetHoleDiameterMm: real,
    rivetSpacingMm: real,
    tubeProfileName: string)

  /** The field defaults: a 96" x 32" x 24" box on 1" feet. */
  const DefaultSpecs := BoxSpecsData(
    2438.4, 812.8, 609.6, 25.4, false,
    1219.2, 609.6, 609.6, 609.6,
    Exterior, true, true, 10.0, 3.0, 1.0,
    1.5, 2.0, 0.0, 4.0, 150.0, "2x2x0.125_A36")

  const MmPerInch := 25.4

  /** `from_imperial`: the eight lengths given in inches, converted to mm; every
      other field comes from the keyword arguments, modelled as the record
      `rest` whose remaining fields are used. */
  function FromImperial(
    lengthIn: real, heightIn: real, depthIn: real, footHeightIn: real,
    verticalOcFrontIn: real, verticalOcBackIn: real,
    horizontalOcTopIn: real, horizontalOcBottomIn: real,
    rest: BoxSpecsData): (s: BoxSpecsData)
    ensures s.lengthMm / MmPerInch == lengthIn && s.heightMm / MmPerInch == heightIn
    ensures s.depthMm / MmPerInch == depthIn && s.footHeightMm / MmPerInch == footHeightIn
    ensures s.verticalOcFrontMm / MmPerInch == verticalOcFrontIn
    ensures s.verticalOcBackMm / MmPerInch == verticalOcBackIn
    ensures s.horizontalOcTopMm / MmPerInch == horizontalOcTopIn
    ensures s.horizontalOcBottomMm / MmPerInch == horizontalOcBottomIn
    ensures s.(lengthMm := rest.lengthMm, heightMm := rest.heightMm, depthMm := rest.depthMm,
               footHeightMm := rest.footHeightMm, verticalOcFrontMm := rest.verticalOcFrontMm,
               verticalOcBackMm := rest.verticalOcBackMm, horizontalOcTopMm := rest.horizontalOcTopMm,
               horizontalOcBottomMm := rest.horizontalOcBottomMm) == rest
  {
    rest.(lengthMm := lengthIn * MmPerInch, heightMm := heightIn * MmPerInch,
          depthMm := depthIn * MmPerInch, footHeightMm := footHeightIn * MmPerInch,
          verticalOcFrontMm := verticalOcFrontIn * MmPerInch,
          verticalOcBackMm := verticalOcBackIn * MmPerInch,
          horizontalOcTopMm := horizontalOcTopIn * MmPerInch,
          horizontalOcBottomMm := horizontalOcBottomIn * MmPerInch)
  }

  /** The imperial defaults of `from_imperial` (1" feet, 48"/24"/24"/24"
      spacing) are the mm defaults of the record. */
  lemma ImperialDefaultsAgree()
    ensures FromImperial(96.0, 32.0, 24.0, 1.0, 48.0, 24.0, 24.0, 24.0, DefaultSpecs) == DefaultSpecs
  {
  }

  /** Number of intermediate supports over a span: none when the spacing is not
      positive, otherwise one less than the whole number of spacings that fit
      in the span less one tube width (the corners count as supports). */
  function SupportCount(spanMm: real, ocMm: real, tubeWidthMm: real): (n: int)
    ensures 0 <= n
    ensures ocMm <= 0.0 ==> n == 0
    ensures 0.0 < ocMm && 2.0 * ocMm <= spanMm - tubeWidthMm ==> 0 < n
  {
    if ocMm <= 0.0 then 0
    else
      var count := Trunc((spanMm - tubeWidthMm) / ocMm);
      TwoSpacingsQuotient(spanMm - tubeWidthMm, ocMm);
      if count - 1 < 0 then 0 else count - 1
  }

  /** Room for two spacings means a quotient of at least two. */
  lemma TwoSpacingsQuotient(usable: real, ocMm: real)
    requires 0.0 < ocMm
    ensures 2.0 * ocMm <= usable ==> 2.0 <= usable / ocMm
  {
    if 2.0 * ocMm <= usable {
      DivTimes(usable, ocMm);
    }
  }

  /** There is a support exactly when two spacings fit in the usable span;
      then the n + 1 gaps of one spacing each fit, and one more gap would not.
      Together these pin the count down for every positive spacing. */
  lemma SupportCountFits(spanMm: real, ocMm: real, tubeWidthMm: real)
    requires 0.0 < ocMm
    ensures var n := SupportCount(spanMm, ocMm, tubeWidthMm);
      var usable := spanMm - tubeWidthMm;
      && (0 < n <==> 2.0 * ocMm <= usable)
      && (0 < n ==> (n + 1) as real * ocMm <= usable < (n + 2) as real * ocMm)
  {
    var usable := spanMm - tubeWidthMm;
    var n := SupportCount(spanMm, ocMm, tubeWidthMm);
    if 0 < n {
      var k := Trunc(usable / ocMm);
      assert n + 1 == k;
      assert 0.0 <= usable / ocMm;
      FitBounds(usable, ocMm);
      assert (n + 1) as real == k as real && (n + 2) as real == k as real + 1.0;
      ScaleLe(2.0, (n + 1) as real, ocMm);
    }
  }

  /** Whole spacings in a non-negative quotient: k gaps fit, k + 1 do not. */
  lemma FitBounds(usable: real, ocMm: real)
    requires 0.0 < ocMm && 0.0 <= usable / ocMm
    ensures Trunc(usable / ocMm) as real * ocMm <= usable < (Trunc(usable / ocMm) as real + 1.0) * ocMm
  {
    var q := usable / ocMm;
    var k := Trunc(q) as real;
    assert k <= q < k + 1.0;
    ScaleLe(k, q, ocMm);
    ScaleLt(q, k + 1.0, ocMm);
    DivTimes(usable, ocMm);
    assert usable < (k + 1.0) * ocMm;
    assert k == Trunc(usable / ocMm) as real;
  }

  lemma ScaleLe(a: real, b: real, c: real)
    requires a <= b && 0.0 < c
    ensures a * c <= b * c
  {
  }

  lemma ScaleLt(a: real, b: real, c: real)
    requires a < b && 0.0 < c
    ensures a * c < b * c
  {
  }

  lemma DivTimes(u: real, c: real)
    requires c != 0.0
    ensures (u / c) * c == u
  {
  }

  /** Vertical supports on the front face, spaced along the length. */
  function CalcVerticalCountFront(s: BoxSpecsData, tubeWidthMm: real): (n: int)
    ensures 0 <= n && (s.verticalOcFrontMm <= 0.0 ==> n == 0)
    ensures 0 < n <==> 0.0 < s.verticalOcFrontMm && 2.0 * s.verticalOcFrontMm <= s.lengthMm - tubeWidthMm
    ensures 0 < n ==> (n + 1) as real * s.verticalOcFrontMm <= s.lengthMm - tubeWidthMm < (n + 2) as real * s.verticalOcFrontMm
  {
    if s.verticalOcFrontMm <= 0.0 then 0
    else
      SupportCountFits(s.lengthMm, s.verticalOcFrontMm, tubeWidthMm);
      SupportCount(s.lengthMm, s.verticalOcFrontMm, tubeWidthMm)
  }

  /** Vertical supports on the back face, spaced along the length. */
  function CalcVerticalCountBack(s: BoxSpecsData, tubeWidthMm: real): (n: int)
    ensures 0 <= n && (s.verticalOcBackMm <= 0.0 ==> n == 0)
    ensures 0 < n <==> 0.0 < s.verticalOcBackMm && 2.0 * s.verticalOcBackMm <= s.lengthMm - tubeWidthMm
    ensures 0 < n ==> (n + 1) as real * s.verticalOcBackMm <= s.lengthMm - tubeWidthMm < (n + 2) as real * s.verticalOcBackMm
  {
    if s.verticalOcBackMm <= 0.0 then 0
    else
      SupportCountFits(s.lengthMm, s.verticalOcBackMm, tubeWidthMm);
      SupportCount(s.lengthMm, s.verticalOcBackMm, tubeWidthMm)
  }

  /** Cross members on the top, spaced along the depth. */
  function CalcHorizontalCountTop(s: BoxSpecsData, tubeWidthMm: real): (n: int)
    ensures 0 <= n && (s.horizontalOcTopMm <= 0.0 ==> n == 0)
    ensures 0 < n <==> 0.0 < s.horizontalOcTopMm && 2.0 * s.horizontalOcTopMm <= s.depthMm - tubeWidthMm
    ensures 0 < n ==> (n + 1) as real * s.horizontalOcTopMm <= s.depthMm - tubeWidthMm < (n + 2) as real * s.horizontalOcTopMm
  {
    if s.horizontalOcTopMm <= 0.0 then 0
    else
      SupportCountFits(s.depthMm, s.horizontalOcTopMm, tubeWidthMm);
      SupportCount(s.depthMm, s.horizontalOcTopMm, tubeWidthMm)
  }

  /** Cross members on the bottom, spaced along the depth. */
  function CalcHorizontalCountBottom(s: BoxSpecsData, tubeWidthMm: real): (n: int)
    ensures 0 <= n && (s.horizontalOcBottomMm <= 0.0 ==> n == 0)
    ensures 0 < n <==> 0.0 < s.horizontalOcBottomMm && 2.0 * s.horizontalOcBottomMm <= s.depthMm - tubeWidthMm
    ensures 0 < n ==> (n + 1) as real * s.horizontalOcBottomMm <= s.depthMm - tubeWidthMm < (n + 2) as real * s.horizontalOcBottomMm
  {
    if s.horizontalOcBottomMm <= 0.0 then 0
    else
      SupportCountFits(s.depthMm, s.horizontalOcBottomMm, tubeWidthMm);
      SupportCount(s.depthMm, s.horizontalOcBottomMm, tubeWidthMm)
  }

  /** With the default specs and a 2" tube the box gets no front support, two
      back supports and no top or bottom cross members. */
  lemma DefaultCounts()
    ensures CalcVerticalCountFront(DefaultSpecs, 50.8) == 0
    ensures CalcVerticalCountBack(DefaultSpecs, 50.8) == 2
    ensures CalcHorizontalCountTop(DefaultSpecs, 50.8) == 0
    ensures CalcHorizontalCountBottom(DefaultSpecs, 50.8) == 0
  {
  }
}
