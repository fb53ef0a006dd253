/** The orchestrator `EnhancedSolarSystem` (main_solar_calculator.py): it starts the rooftop
    calculator and the small-polygon handler, then turns one rooftop polygon into a location
    record, an irradiance record, a roof assessment, an energy estimate and an economic
    estimate. The Earth Engine answers and the calculation date are parameters. */
module SolarSystem {
  import opened Wrappers
  import opened Numeric
  import opened Polygon
  import opened GeeSolarData
  import opened SmallPolygonHandler
  import opened RooftopCalculator

  // ---------------------------------------------------------------- start-up

  /** What `_initialize_components` leaves behind: the two switches and which components
      exist. */
  datatype Components = Components(useSatelliteData: bool, useAdaptiveBuffering: bool,
                                   hasCalculator: bool, hasPolygonHandler: bool)

  /** `_initialize_components`. The calculator class is bound when its module imports; the
      handler class is bound when both modules import (they share one `try`). `GEESolarData`
      is never bound, because gee_solar_data.py defines no class of that name, so asking for
      satellite data always ends in the `except` branch, which switches off both flags. */
  function InitializeComponents(useSatelliteData: bool, useAdaptiveBuffering: bool,
                                calculatorImports: bool, handlerImports: bool): (c: Components)
    ensures !c.useSatelliteData
    ensures c.hasCalculator <==> calculatorImports
    ensures c.hasPolygonHandler <==> calculatorImports && handlerImports && useAdaptiveBuffering
    ensures c.useAdaptiveBuffering <==> c.hasPolygonHandler && !useSatelliteData
    ensures c.hasPolygonHandler ==> c.hasCalculator
  {
    if !calculatorImports then Components(false, false, false, false)
    else if useAdaptiveBuffering && !handlerImports then Components(false, false, true, false)
    else if useSatelliteData then Components(false, false, true, useAdaptiveBuffering)
    else Components(false, useAdaptiveBuffering, true, useAdaptiveBuffering)
  }

  // ---------------------------------------------------------------- geometry

  /** `_calculate_polygon_area`: the shoelace area of the closed ring in square degrees,
      scaled by 111 320 m per degree of latitude and by the longitude scale at the mean
      latitude of the closed ring. */
  function PolygonArea(m: MathLib, coords: seq<Point>): (area: real)
    ensures |coords| < 3 ==> area == 0.0
  {
    if |coords| < 3 then 0.0
    else
      var ring := Close(coords);
      Abs(PathSum(ring)) / 2.0 * 111320.0 * LongitudeScale(m, Centroid(ring).y)
  }

  /** The area in square degrees is half the absolute cyclic shoelace sum of the vertices as
      given, whether or not the caller closed the ring. */
  lemma PolygonAreaShoelace(m: MathLib, coords: seq<Point>)
    requires |coords| >= 3
    ensures PolygonArea(m, coords)
      == Abs(CyclicSum(coords)) / 2.0 * 111320.0 * LongitudeScale(m, Centroid(Close(coords)).y)
  {
    var ring := Close(coords);
    assert PathSum(ring) == CyclicSum(coords) by {
      ClosedPathIsCyclic(coords);
    }
  }

  /** Closing the ring before the call changes nothing. */
  lemma PolygonAreaClosed(m: MathLib, coords: seq<Point>)
    requires |coords| >= 3
    ensures PolygonArea(m, Close(coords)) == PolygonArea(m, coords)
  {
    assert Close(Close(coords)) == Close(coords);
  }

  /** With latitudes within [-90, 90] the cosine factor is not negative, so neither is the
      area. */
  lemma PolygonAreaNonNegative(m: MathLib, coords: seq<Point>)
    requires m.CosPositive()
    requires forall i :: 0 <= i < |coords| ==> -90.0 <= coords[i].y <= 90.0
    ensures PolygonArea(m, coords) >= 0.0
  {
    if |coords| >= 3 {
      var ring := Close(coords);
      var lat := Centroid(ring).y;
      assert -90.0 <= lat <= 90.0 by {
        CloseKeepsLatitudes(coords);
        MeanLatitudeInRange(ring);
      }
      ScaledAreaNonNegative(m, PathSum(ring), lat);
    }
  }

  /** The latitude used for the longitude scale is the mean over the closed ring: when the
      caller passes an open ring, the first vertex is counted twice. */
  lemma AreaLatitudeCountsFirstVertexTwice(coords: seq<Point>)
    requires |coords| >= 3 && coords[0] != coords[|coords| - 1]
    ensures Centroid(Close(coords)).y == (Sum(Ys(coords)) + coords[0].y) / (|coords| + 1) as real
  {
    assert Ys(Close(coords)) == Ys(coords) + [coords[0].y];
    SumAppend(Ys(coords), coords[0].y);
  }

  /** `_calculate_polygon_area`, with the shoelace loop. */
  method CalculatePolygonArea(m: MathLib, coords: seq<Point>) returns (areaM2: real)
    ensures areaM2 == PolygonArea(m, coords)
  {
    if |coords| < 3 {
      return 0.0;
    }
    var ring := Close(coords);
    var area := PathShoelace(ring);
    area := Abs(area) / 2.0;
    var lat := Centroid(ring).y;
    areaM2 := area * 111320.0 * LongitudeScale(m, lat);
  }

  // ---------------------------------------------------------------- roof orientation

  /** The orientation `_estimate_roof_orientation` gives edge `i`: its compass bearing, moved
      into [0, 360) when negative, turned a quarter to the right, modulo 360. */
  function EdgeOrientation(m: MathLib, coords: seq<Point>, i: nat): (r: real)
    requires i < |coords|
    ensures 0.0 <= r < 360.0
  {
    var azimuth := EdgeBearing(m, coords, i);
    var azimuth' := if azimuth < 0.0 then azimuth + 360.0 else azimuth;
    PyMod(azimuth' + 90.0, 360.0)
  }

  /** Adding 360 to a negative bearing has no effect on the result. */
  lemma EdgeOrientationIsQuarterTurn(m: MathLib, coords: seq<Point>, i: nat)
    requires i < |coords|
    ensures EdgeOrientation(m, coords, i) == PyMod(EdgeBearing(m, coords, i) + 90.0, 360.0)
  {
    var b := EdgeBearing(m, coords, i);
    if b < 0.0 {
      PyModShift(b + 90.0, 360.0, 1);
    }
  }

  /** `_estimate_roof_orientation`: south (180) for fewer than three vertices or when no edge
      is longer than 0, otherwise the orientation of the first strictly longest edge. */
  function RoofOrientation(m: MathLib, coords: seq<Point>): (r: real)
    ensures 0.0 <= r < 360.0
    ensures |coords| < 3 || FirstMax(EdgeLengths(m, coords)) < 0 ==> r == 180.0
  {
    if |coords| < 3 then 180.0
    else
      var k := FirstMax(EdgeLengths(m, coords));
      if k < 0 then 180.0 else EdgeOrientation(m, coords, k)
  }

  /** The orientation is the calculator's roof azimuth (same longest edge) turned a quarter
      to the right, whenever some edge has positive length. */
  lemma RoofOrientationIsPerpendicular(m: MathLib, coords: seq<Point>)
    requires |coords| >= 3 && FirstMax(EdgeLengths(m, coords)) >= 0
    ensures RoofOrientation(m, coords) == PyMod(RoofAzimuth(m, coords) + 90.0, 360.0)
  {
    var k := FirstMax(EdgeLengths(m, coords));
    EdgeOrientationIsQuarterTurn(m, coords, k);
    PyModAdd(EdgeBearing(m, coords, k), 90.0, 360.0);
  }

  /** The state of the edge scan after the first i edges: the longest length so far and the
      orientation of the first edge that reached it (0 and south before any positive edge). */
  ghost predicate OrientationScan(m: MathLib, coords: seq<Point>, i: nat, maxLength: real, bestAzimuth: real)
    requires i <= |coords|
  {
    var k := FirstMax(EdgeLengths(m, coords)[..i]);
    && maxLength == (if k < 0 then 0.0 else EdgeLength(m, coords, k))
    && bestAzimuth == (if k < 0 then 180.0 else EdgeOrientation(m, coords, k))
  }

  /** One more edge replaces the best one exactly when it is strictly longer. */
  lemma OrientationScanStep(m: MathLib, coords: seq<Point>, i: nat, maxLength: real, bestAzimuth: real)
    requires i < |coords| && OrientationScan(m, coords, i, maxLength, bestAzimuth)
    ensures EdgeLength(m, coords, i) > maxLength ==>
      OrientationScan(m, coords, i + 1, EdgeLength(m, coords, i), EdgeOrientation(m, coords, i))
    ensures EdgeLength(m, coords, i) <= maxLength ==> OrientationScan(m, coords, i + 1, maxLength, bestAzimuth)
  {
    FirstMaxStep(EdgeLengths(m, coords), i);
  }

  /** `_estimate_roof_orientation`, with its scan over the edges. */
  method EstimateRoofOrientation(m: MathLib, coords: seq<Point>) returns (bestAzimuth: real)
    ensures bestAzimuth == RoofOrientation(m, coords)
  {
    if |coords| < 3 {
      return 180.0;
    }
    var n := |coords|;
    var maxLength := 0.0;
    bestAzimuth := 180.0;
    var i := 0;
    while i < n
      invariant 0 <= i <= n
      invariant OrientationScan(m, coords, i, maxLength, bestAzimuth)
    {
      var length := EdgeLength(m, coords, i);
      OrientationScanStep(m, coords, i, maxLength, bestAzimuth);
      if length > maxLength {
        maxLength := length;
        var azimuth := EdgeBearing(m, coords, i);
        if azimuth < 0.0 {
          azimuth := azimuth + 360.0;
        }
        bestAzimuth := PyMod(azimuth + 90.0, 360.0);
      }
      i := i + 1;
    }
    assert EdgeLengths(m, coords)[..n] == EdgeLengths(m, coords);
  }

  // ---------------------------------------------------------------- roof assessment

  /** The angular distance from south, folded once: `abs(azimuth - 180)`, replaced by its
      complement to 360 when above 180. */
  function SouthDeviation(azimuth: real): (d: real)
    ensures 0.0 <= azimuth < 360.0 ==> 0.0 <= d <= 180.0
    ensures d == 0.0 <==> azimuth == 180.0 || azimuth == 540.0 || azimuth == -180.0
  {
    var d := Abs(azimuth - 180.0);
    if d > 180.0 then 360.0 - d else d
  }

  /** `_calculate_shading_factor`: three steps by deviation from south. */
  function OrientationShading(azimuth: real): (f: real)
    ensures f == 0.95 || f == 0.85 || f == 0.70
    ensures f == 0.95 <==> SouthDeviation(azimuth) <= 45.0
    ensures f == 0.70 <==> SouthDeviation(azimuth) > 90.0
  {
    var d := SouthDeviation(azimuth);
    if d <= 45.0 then 0.95 else if d <= 90.0 then 0.85 else 0.70
  }

  /** Turning further from south never raises the shading factor. */
  lemma OrientationShadingMonotone(a1: real, a2: real)
    requires SouthDeviation(a1) <= SouthDeviation(a2)
    ensures OrientationShading(a2) <= OrientationShading(a1)
  {
  }

  /** `_score_orientation` */
  function OrientationScore(azimuth: real): (s: real)
    ensures s >= 0.5
    ensures 0.0 <= azimuth < 360.0 ==> s <= 1.0
    ensures s == 1.0 <==> SouthDeviation(azimuth) == 0.0
  {
    Max(0.5, 1.0 - SouthDeviation(azimuth) / 180.0)
  }

  /** `_score_tilt`: the latitude is the ideal tilt; the score falls by 1 per 45 degrees of
      difference, down to 0.7. */
  function TiltScore(tilt: real, latitude: real): (s: real)
    ensures 0.7 <= s <= 1.0
    ensures s == 1.0 <==> tilt == Abs(latitude)
  {
    Max(0.7, 1.0 - Abs(tilt - Abs(latitude)) / 45.0)
  }

  /** The tilt `_analyze_rooftop_characteristics` proposes: the latitude, capped at 30. */
  function OptimalTilt(latitude: real): (t: real)
    ensures 0.0 <= t <= 30.0 && t <= Abs(latitude)
    ensures t == Abs(latitude) <==> Abs(latitude) <= 30.0
  {
    Min(Abs(latitude), 30.0)
  }

  /** The proposed tilt scores full marks exactly when the cap does not bite, and otherwise
      loses 1 per 45 degrees of latitude beyond 30. */
  lemma OptimalTiltScore(latitude: real)
    ensures TiltScore(OptimalTilt(latitude), latitude) == 1.0 <==> Abs(latitude) <= 30.0
    ensures Abs(latitude) > 30.0 ==>
      TiltScore(OptimalTilt(latitude), latitude) == Max(0.7, 1.0 - (Abs(latitude) - 30.0) / 45.0)
  {
  }

  /** `_analyze_rooftop_characteristics`'s dictionary. */
  datatype RoofAnalysis = RoofAnalysis(
    estimatedRoofAzimuth: real, optimalTiltAngle: real,
    shadingFactor: real, soilingFactor: real, spectralFactor: real,
    roofSuitability: string, orientationScore: real, tiltScore: real)

  /** The roof assessment of a polygon. */
  function RoofAnalysisOf(m: MathLib, coords: seq<Point>): (r: RoofAnalysis)
    ensures r.estimatedRoofAzimuth == RoofOrientation(m, coords)
    ensures r.roofSuitability == "Good" <==> SouthDeviation(r.estimatedRoofAzimuth) <= 45.0
    ensures r.roofSuitability == "Good" || r.roofSuitability == "Moderate"
    ensures 0.5 <= r.orientationScore <= 1.0 && 0.7 <= r.tiltScore <= 1.0
    ensures r.tiltScore == 1.0 <==> Abs(Centroid(coords).y) <= 30.0
    ensures 0.7 <= r.shadingFactor <= 0.95 && r.soilingFactor == 0.98 && r.spectralFactor == 1.02
  {
    var azimuth := RoofOrientation(m, coords);
    var lat := Centroid(coords).y;
    var tilt := OptimalTilt(lat);
    var shading := OrientationShading(azimuth);
    OptimalTiltScore(lat);
    RoofAnalysis(azimuth, tilt, shading, 0.98, 1.02, if shading > 0.9 then "Good" else "Moderate",
                 OrientationScore(azimuth), TiltScore(tilt, lat))
  }

  /** `_analyze_rooftop_characteristics` */
  method AnalyzeRooftopCharacteristics(m: MathLib, coords: seq<Point>) returns (r: RoofAnalysis)
    ensures r == RoofAnalysisOf(m, coords)
  {
    var roofAzimuth := EstimateRoofOrientation(m, coords);
    var centroidLat := Centroid(coords).y;
    var optimalTilt := OptimalTilt(centroidLat);
    var shadingFactor := OrientationShading(roofAzimuth);
    r := RoofAnalysis(roofAzimuth, optimalTilt, shadingFactor, 0.98, 1.02,
                      if shadingFactor > 0.9 then "Good" else "Moderate",
                      OrientationScore(roofAzimuth), TiltScore(optimalTilt, centroidLat));
  }

  // ---------------------------------------------------------------- irradiance

  /** What `_get_enhanced_irradiance` returns: the calculator's record, or the short record of
      the buffering and basic fallbacks. */
  datatype IrradianceResult =
    | Enhanced(irradiance: EnhancedIrradiance)
    | Simple(finalPoa: real, dailyEnergy: real, satelliteDataUsed: bool, methodUsed: string,
             scientificValidity: string)
  {
    /** `irradiance_result.get('daily_energy_kwh_per_m2', 4.5)`: both shapes carry the key. */
    function DailyEnergy(): real
    {
      if Enhanced? then irradiance.dailyEnergy else dailyEnergy
    }
  }

  /** `_basic_solar_calculation`: 4.5 kWh/m² a day, spread over 8 peak hours. */
  function BasicSolarCalculation(): (r: IrradianceResult)
    ensures r.Simple? && r.finalPoa == r.dailyEnergy * 1000.0 / 8.0 && r.dailyEnergy == 4.5
    ensures !r.satelliteDataUsed && r.methodUsed == "basic_calculation" && r.scientificValidity == "Low"
  {
    Simple(4.5 * 1000.0 / 8.0, 4.5, false, "basic_calculation", "Low")
  }

  /** The record the buffering fallback builds from a successful small-polygon retrieval: the
      daily value spread over 24 hours, not 8 as in the other two records. */
  function BufferedIrradiance(enhanced: Era5Result): (r: Option<IrradianceResult>)
    ensures r.Some? <==> enhanced.Retrieved?
    ensures r.Some? ==> && r.value.Simple? && r.value.dailyEnergy == enhanced.ghi
                        && r.value.finalPoa * 24.0 == r.value.dailyEnergy * 1000.0
                        && r.value.satelliteDataUsed && r.value.methodUsed == enhanced.methodUsed
  {
    if !enhanced.Retrieved? then None
    else
      var validity := if enhanced.methodInfo.RaisedInfo? then "Medium" else enhanced.methodInfo.Validity().Name();
      Some(Simple(enhanced.ghi * 1000.0 / 24.0, enhanced.ghi, true, enhanced.methodUsed, validity))
  }

  // ---------------------------------------------------------------- energy

  /** `_calculate_monthly_breakdown`'s seasonal factors and month lengths. */
  const MONTHLY_FACTORS: seq<real> := [1.1, 1.1, 1.05, 1.0, 0.95, 0.85, 0.8, 0.8, 0.85, 0.9, 1.0, 1.05]
  const DAYS_PER_MONTH: seq<real> := [31.0, 28.0, 31.0, 30.0, 31.0, 30.0, 31.0, 31.0, 30.0, 31.0, 30.0, 31.0]

  /** `_calculate_monthly_breakdown`: days times seasonal factor times the daily energy. */
  function MonthlyBreakdown(daily: real): (r: seq<real>)
    ensures |r| == 12
  {
    seq(12, i requires 0 <= i < 12 => daily * DAYS_PER_MONTH[i] * MONTHLY_FACTORS[i])
  }

  lemma SumStep(xs: seq<real>, i: nat)
    requires i < |xs|
    ensures Sum(xs[..i + 1]) == Sum(xs[..i]) + xs[i]
  {
    assert xs[..i + 1] == xs[..i] + [xs[i]];
    SumAppend(xs[..i], xs[i]);
  }

  /** The month lengths add up to a 365-day year. */
  lemma DaysPerMonthTotal()
    ensures Sum(DAYS_PER_MONTH) == 365.0
  {
    assert DAYS_PER_MONTH[..0] == [];
    SumStep(DAYS_PER_MONTH, 0);
    SumStep(DAYS_PER_MONTH, 1);
    SumStep(DAYS_PER_MONTH, 2);
    SumStep(DAYS_PER_MONTH, 3);
    SumStep(DAYS_PER_MONTH, 4);
    SumStep(DAYS_PER_MONTH, 5);
    SumStep(DAYS_PER_MONTH, 6);
    SumStep(DAYS_PER_MONTH, 7);
    SumStep(DAYS_PER_MONTH, 8);
    SumStep(DAYS_PER_MONTH, 9);
    SumStep(DAYS_PER_MONTH, 10);
    SumStep(DAYS_PER_MONTH, 11);
    assert DAYS_PER_MONTH[..12] == DAYS_PER_MONTH;
  }

  /** The twelve months together hold 347.95 days' worth of energy, not the 365 the annual
      figure uses. */
  lemma MonthlyBreakdownTotal(daily: real)
    ensures Sum(MonthlyBreakdown(daily)) == 347.95 * daily
  {
    var r := MonthlyBreakdown(daily);
    assert r[..0] == [];
    SumStep(r, 0);
    SumStep(r, 1);
    SumStep(r, 2);
    SumStep(r, 3);
    SumStep(r, 4);
    SumStep(r, 5);
    SumStep(r, 6);
    SumStep(r, 7);
    SumStep(r, 8);
    SumStep(r, 9);
    SumStep(r, 10);
    SumStep(r, 11);
    assert r[..12] == r;
  }

  /** `_calculate_energy_production`'s dictionary (with the performance factors inlined). */
  datatype EnergyAnalysis = EnergyAnalysis(
    dailyEnergyPerM2: real, effectiveDailyPerM2: real, usableRoofArea: real,
    dailySystemEnergy: real, monthlySystemEnergy: real, annualSystemEnergy: real,
    monthlyBreakdown: seq<real>,
    shadingFactor: real, soilingFactor: real, spectralFactor: real,
    panelEfficiency: real, systemLosses: real, usableAreaFactor: real)

  /** `_calculate_energy_production`: the daily irradiance through the roof factors, on 80%
      of the roof, at the panel efficiency, less the system losses. */
  function EnergyProduction(daily: real, roof: RoofAnalysis, area: real, panelEfficiency: real,
                            systemLosses: real): (e: EnergyAnalysis)
    ensures e.annualSystemEnergy == 365.0 * e.dailySystemEnergy
    ensures e.monthlySystemEnergy == 30.44 * e.dailySystemEnergy
    ensures Sum(e.monthlyBreakdown) == 347.95 * e.dailySystemEnergy
    ensures e.usableRoofArea == 0.8 * area
  {
    var effective := daily * roof.shadingFactor * roof.soilingFactor * roof.spectralFactor;
    var usableArea := area * 0.8;
    var dailySystem := effective * usableArea * panelEfficiency * (1.0 - systemLosses);
    MonthlyBreakdownTotal(dailySystem);
    EnergyAnalysis(daily, effective, usableArea, dailySystem, dailySystem * 30.44, dailySystem * 365.0,
                   MonthlyBreakdown(dailySystem), roof.shadingFactor, roof.soilingFactor, roof.spectralFactor,
                   panelEfficiency, systemLosses, 0.8)
  }

  /** Every energy figure is non-negative for non-negative irradiance, area, factors and
      efficiency, and losses of at most 100%. */
  lemma EnergyNonNegative(daily: real, roof: RoofAnalysis, area: real, panelEfficiency: real, systemLosses: real)
    requires daily >= 0.0 && area >= 0.0 && panelEfficiency >= 0.0 && systemLosses <= 1.0
    requires roof.shadingFactor >= 0.0 && roof.soilingFactor >= 0.0 && roof.spectralFactor >= 0.0
    ensures var e := EnergyProduction(daily, roof, area, panelEfficiency, systemLosses);
      && e.effectiveDailyPerM2 >= 0.0 && e.dailySystemEnergy >= 0.0
      && e.monthlySystemEnergy >= 0.0 && e.annualSystemEnergy >= 0.0
  {
    var effective := daily * roof.shadingFactor * roof.soilingFactor * roof.spectralFactor;
    MulLe(0.0, roof.shadingFactor, daily);
    MulLe(0.0, roof.soilingFactor, daily * roof.shadingFactor);
    MulLe(0.0, roof.spectralFactor, daily * roof.shadingFactor * roof.soilingFactor);
    MulLe(0.0, area * 0.8, effective);
    MulLe(0.0, panelEfficiency, effective * (area * 0.8));
    MulLe(0.0, 1.0 - systemLosses, effective * (area * 0.8) * panelEfficiency);
  }

  /** The system energy is proportional to the roof area. */
  lemma EnergyProportionalToArea(daily: real, roof: RoofAnalysis, area: real, panelEfficiency: real,
                                 systemLosses: real)
    ensures EnergyProduction(daily, roof, area, panelEfficiency, systemLosses).dailySystemEnergy
      == area * EnergyProduction(daily, roof, 1.0, panelEfficiency, systemLosses).dailySystemEnergy
  {
    var effective := daily * roof.shadingFactor * roof.soilingFactor * roof.spectralFactor;
    var rest := panelEfficiency * (1.0 - systemLosses);
    calc {
      effective * (area * 0.8) * panelEfficiency * (1.0 - systemLosses);
    ==
      area * (effective * 0.8 * rest);
    ==
      area * (effective * (1.0 * 0.8) * panelEfficiency * (1.0 - systemLosses));
    }
  }

  // ---------------------------------------------------------------- economics

  /** `_calculate_economics`'s dictionary; a zero consumption makes the coverage division
      raise, and the `except` branch reports only the error and a score of 0. */
  datatype Economics =
    | Economics(monthlyProduction: real, monthlyConsumption: real, monthlySavingsPotential: real,
                monthlyExcess: real, annualSavings: real, consumptionCoverage: real,
                solarPotentialScore: real, electricityRate: real,
                estimatedSystemCost: real, simplePaybackYears: real)
    | EconomicsFailed(error: Error, solarPotentialScore: real)

  /** `_calculate_economics` at 4.5 THB/kWh and 50 THB per annual kWh of system cost. */
  function EconomicsOf(energy: EnergyAnalysis, consumption: real): (e: Economics)
    ensures e.EconomicsFailed? <==> consumption == 0.0
    ensures e.EconomicsFailed? ==> e.error == ZeroDivision && e.solarPotentialScore == 0.0
    ensures e.Economics? ==>
      && e.monthlyProduction == energy.monthlySystemEnergy && e.monthlyConsumption == consumption
      && e.monthlySavingsPotential + e.monthlyExcess == e.monthlyProduction
      && e.monthlySavingsPotential <= consumption && e.monthlyExcess >= 0.0
      && e.annualSavings == 12.0 * 4.5 * e.monthlySavingsPotential
      && e.consumptionCoverage <= 100.0 && e.solarPotentialScore <= 100.0
      && e.estimatedSystemCost == 50.0 * energy.annualSystemEnergy
      && e.simplePaybackYears * Max(e.annualSavings, 1.0) == e.estimatedSystemCost
  {
    var production := energy.monthlySystemEnergy;
    var rate := 4.5;
    var savings := Min(production, consumption);
    var annualSavings := savings * 12.0 * rate;
    var excess := Max(0.0, production - consumption);
    if consumption == 0.0 then EconomicsFailed(ZeroDivision, 0.0)
    else
      var coverage := Min(100.0, production / consumption * 100.0);
      var score := Min(100.0, coverage * 0.8 + 20.0);
      var cost := energy.annualSystemEnergy * 50.0;
      Economics(production, consumption, savings, excess, annualSavings, coverage, score, rate,
                cost, cost / Max(annualSavings, 1.0))
  }

  /** For a positive consumption: the coverage is capped at 100 exactly when production meets
      consumption, there is excess exactly when production exceeds it, and a non-negative
      production scores between 20 and 100. */
  lemma EconomicsCoverage(energy: EnergyAnalysis, consumption: real)
    requires consumption > 0.0
    ensures var e := EconomicsOf(energy, consumption);
      && (e.consumptionCoverage == 100.0 <==> energy.monthlySystemEnergy >= consumption)
      && (e.consumptionCoverage < 100.0 ==>
            e.consumptionCoverage == energy.monthlySystemEnergy / consumption * 100.0)
      && (e.monthlyExcess > 0.0 <==> energy.monthlySystemEnergy > consumption)
      && (energy.monthlySystemEnergy >= 0.0 ==> 20.0 <= e.solarPotentialScore <= 100.0)
  {
    var p := energy.monthlySystemEnergy;
    var q := p / consumption;
    assert q * consumption == p;
    if p >= consumption {
      if q < 1.0 { MulLt(q, 1.0, consumption); }
    } else {
      if q >= 1.0 { MulLe(1.0, q, consumption); }
    }
    if p >= 0.0 {
      if q < 0.0 { MulLt(q, 0.0, consumption); }
    }
  }

  // ---------------------------------------------------------------- the analysis record

  /** `analyze_rooftop_potential`'s `location` entry. */
  datatype Location = Location(centroidLatitude: real, centroidLongitude: real, polygonAreaM2: real,
                               polygonCoords: seq<Point>)

  /** `analyze_rooftop_potential`'s `methodology` entry. */
  datatype Methodology = Methodology(solarPosition: string, clearSkyModel: string, airMassFormula: string,
                                     adaptiveBuffering: bool, satelliteData: bool)

  /** `analyze_rooftop_potential`'s result. */
  datatype PotentialAnalysis = PotentialAnalysis(
    location: Location, irradiance: IrradianceResult, rooftop: RoofAnalysis,
    energy: EnergyAnalysis, economics: Economics,
    panelEfficiency: real, systemLosses: real, monthlyConsumption: real,
    methodology: Methodology)

  /** The analysis record for one irradiance result: the centroid and area, the roof
      assessment, the energy and the economics, each from the previous ones. */
  function PotentialAnalysisOf(m: MathLib, coords: seq<Point>, irradiance: IrradianceResult,
                               monthlyConsumption: real, panelEfficiency: real, systemLosses: real,
                               adaptiveBuffering: bool, satelliteData: bool): PotentialAnalysis
  {
    var c := Centroid(coords);
    var area := PolygonArea(m, coords);
    var roof := RoofAnalysisOf(m, coords);
    var energy := EnergyProduction(irradiance.DailyEnergy(), roof, area, panelEfficiency, systemLosses);
    PotentialAnalysis(Location(c.y, c.x, area, coords), irradiance, roof, energy,
                      EconomicsOf(energy, monthlyConsumption), panelEfficiency, systemLosses, monthlyConsumption,
                      Methodology("Michalsky algorithm", "Ineichen-Perez", "Kasten-Young",
                                  adaptiveBuffering, satelliteData))
  }

  /** From a non-negative daily irradiance, a polygon with latitudes within [-90, 90], a
      positive consumption, a non-negative efficiency and losses of at most 100%, the solar
      potential score lies between 20 and 100. */
  lemma PotentialScoreBounds(m: MathLib, coords: seq<Point>, irradiance: IrradianceResult,
                             monthlyConsumption: real, panelEfficiency: real, systemLosses: real,
                             adaptiveBuffering: bool, satelliteData: bool)
    requires m.CosPositive()
    requires forall i :: 0 <= i < |coords| ==> -90.0 <= coords[i].y <= 90.0
    requires irradiance.DailyEnergy() >= 0.0 && monthlyConsumption > 0.0
    requires panelEfficiency >= 0.0 && systemLosses <= 1.0
    ensures var r := PotentialAnalysisOf(m, coords, irradiance, monthlyConsumption, panelEfficiency,
                                         systemLosses, adaptiveBuffering, satelliteData);
      20.0 <= r.economics.solarPotentialScore <= 100.0
  {
    var roof := RoofAnalysisOf(m, coords);
    var area := PolygonArea(m, coords);
    PolygonAreaNonNegative(m, coords);
    EnergyNonNegative(irradiance.DailyEnergy(), roof, area, panelEfficiency, systemLosses);
    EconomicsCoverage(EnergyProduction(irradiance.DailyEnergy(), roof, area, panelEfficiency, systemLosses),
                      monthlyConsumption);
  }

  /** The rest of `analyze_rooftop_potential` once the irradiance is known: the area, the roof
      characteristics, the energy and the economics, gathered with the methodology. */
  method AnalyzeWithIrradiance(m: MathLib, coords: seq<Point>, irradianceResult: IrradianceResult,
                               monthlyConsumption: real, panelEfficiency: real, systemLosses: real,
                               adaptiveBuffering: bool, satelliteData: bool)
    returns (r: PotentialAnalysis)
    ensures r == PotentialAnalysisOf(m, coords, irradianceResult, monthlyConsumption, panelEfficiency, systemLosses,
                                     adaptiveBuffering, satelliteData)
  {
    var centroid := Centroid(coords);
    var polygonAreaM2 := CalculatePolygonArea(m, coords);
    var rooftopAnalysis := AnalyzeRooftopCharacteristics(m, coords);
    var energyAnalysis := EnergyProduction(irradianceResult.DailyEnergy(), rooftopAnalysis, polygonAreaM2,
                                           panelEfficiency, systemLosses);
    var economicAnalysis := EconomicsOf(energyAnalysis, monthlyConsumption);
    r := PotentialAnalysis(
      Location(centroid.y, centroid.x, polygonAreaM2, coords),
      irradianceResult, rooftopAnalysis, energyAnalysis, economicAnalysis,
      panelEfficiency, systemLosses, monthlyConsumption,
      Methodology("Michalsky algorithm", "Ineichen-Perez", "Kasten-Young", adaptiveBuffering, satelliteData));
  }

  // ---------------------------------------------------------------- the system object

  /** `EnhancedSolarSystem`: the two switches, the calculator (absent when its module does
      not import) and whether the small-polygon handler exists. */
  class EnhancedSolarSystem {
    var useSatelliteData: bool
    var useAdaptiveBuffering: bool
    var thailandOptimized: bool
    var calculator: Calculator?
    var hasPolygonHandler: bool

    /** The handler is created only after the calculator, in the same `try`. */
    ghost predicate Valid()
      reads this, calculator
    {
      && (calculator != null ==> calculator.Valid())
      && (hasPolygonHandler ==> calculator != null)
    }

    /** `__init__`: the components, then the Thailand parameters, which are the values the
        calculator already starts with. */
    constructor(useSatelliteData: bool, useAdaptiveBuffering: bool, thailandOptimized: bool,
                calculatorImports: bool, handlerImports: bool, geeAvailable: bool, retrieversStart: bool)
      ensures Valid()
      ensures var c := InitializeComponents(useSatelliteData, useAdaptiveBuffering, calculatorImports, handlerImports);
        && this.useSatelliteData == c.useSatelliteData && this.useAdaptiveBuffering == c.useAdaptiveBuffering
        && (calculator != null <==> c.hasCalculator) && hasPolygonHandler == c.hasPolygonHandler
      ensures this.thailandOptimized == thailandOptimized
      ensures calculator != null ==>
        && fresh(calculator)
        && calculator.useSatelliteData == (useSatelliteData && geeAvailable && retrieversStart)
        && calculator.atmospheric == THAILAND_ATMOSPHERE && calculator.rooftop == DEFAULT_ROOFTOP
    {
      var c := InitializeComponents(useSatelliteData, useAdaptiveBuffering, calculatorImports, handlerImports);
      this.useSatelliteData := c.useSatelliteData;
      this.useAdaptiveBuffering := c.useAdaptiveBuffering;
      this.thailandOptimized := thailandOptimized;
      hasPolygonHandler := c.hasPolygonHandler;
      if c.hasCalculator {
        calculator := new Calculator(useSatelliteData, geeAvailable, retrieversStart);
      } else {
        calculator := null;
      }
      new;
      if thailandOptimized {
        SetupThailandParameters();
      }
    }

    /** `_setup_thailand_parameters`: every key of both dictionaries is overwritten, so they
        end equal to the Thailand values; the satellite switch is untouched. */
    method SetupThailandParameters()
      requires Valid()
      modifies calculator
      ensures Valid()
      ensures calculator != null ==>
        && calculator.atmospheric == THAILAND_ATMOSPHERE && calculator.rooftop == DEFAULT_ROOFTOP
        && calculator.useSatelliteData == old(calculator.useSatelliteData)
    {
      if calculator != null {
        calculator.atmospheric := THAILAND_ATMOSPHERE;
        calculator.rooftop := DEFAULT_ROOFTOP;
      }
    }

    /** What `_get_enhanced_irradiance` returns: the calculator's record whenever there is a
        calculator (its record has no `success` key), otherwise the basic estimate. */
    function IrradianceFor(m: MathLib, lat: real, lon: real, coords: seq<Point>, date: DateTime,
                           enhanced: Era5Result, original: Option<Irradiance>): (r: IrradianceResult)
      reads this, calculator
      requires Valid() && m.TrigBounded() && m.InverseRanges() && m.CosPositive() && m.PowFacts()
      ensures r.Enhanced? <==> calculator != null
      ensures r.DailyEnergy() >= 0.0
      ensures r.Simple? ==> r == BasicSolarCalculation()
    {
      if calculator != null then
        Enhanced(EnhancedIrradianceOf(m, calculator.atmospheric, calculator.rooftop, lat, lon, coords, date,
                                      None, None, SatelliteIntegration(calculator.useSatelliteData, enhanced, original)))
      else BasicSolarCalculation()
    }

    /** `_get_enhanced_irradiance`, with the satellite answers and the date as parameters. */
    method GetEnhancedIrradiance(m: MathLib, lat: real, lon: real, coords: seq<Point>, date: DateTime,
                                 enhanced: Era5Result, original: Option<Irradiance>)
      returns (r: IrradianceResult)
      requires Valid() && m.TrigBounded() && m.InverseRanges() && m.CosPositive() && m.PowFacts()
      ensures r == IrradianceFor(m, lat, lon, coords, date, enhanced, original)
    {
      if calculator != null {
        var result := calculator.CalculateEnhancedIrradiance(m, lat, lon, coords, date, None, None, enhanced, original);
        return Enhanced(result);
      }
      r := BasicSolarCalculation();
    }

    /** `analyze_rooftop_potential`, with the irradiance of `_get_enhanced_irradiance` at
        the centroid. */
    method AnalyzeRooftopPotential(m: MathLib, coords: seq<Point>, monthlyConsumption: real,
                                   panelEfficiency: real, systemLosses: real, date: DateTime,
                                   enhanced: Era5Result, original: Option<Irradiance>)
      returns (r: PotentialAnalysis)
      requires Valid() && m.TrigBounded() && m.InverseRanges() && m.CosPositive() && m.PowFacts()
      ensures r == PotentialAnalysisOf(m, coords,
                                       IrradianceFor(m, Centroid(coords).y, Centroid(coords).x, coords, date,
                                                     enhanced, original),
                                       monthlyConsumption, panelEfficiency, systemLosses,
                                       useAdaptiveBuffering, useSatelliteData)
    {
      var centroid := Centroid(coords);
      var irradianceResult := GetEnhancedIrradiance(m, centroid.y, centroid.x, coords, date, enhanced, original);
      r := AnalyzeWithIrradiance(m, coords, irradianceResult, monthlyConsumption, panelEfficiency, systemLosses,
                                 useAdaptiveBuffering, useSatelliteData);
    }
  }
}
